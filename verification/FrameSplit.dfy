/** Telemetry payloads, their encoded size, and how an oversize one is split. */
module FrameSplit {
  import opened Basics
  import opened MessageSplit
  import opened ByteSplit

  datatype ChunkKind = Message | Thought

  datatype ToolStatus = Executing | Completed | Failed

  datatype Part = Part(index: nat, count: nat)

  /** `extra` and `rest` are the encoded bytes the other fields take. A split tool result
      carries its part number. */
  datatype Payload =
    | Chunk(kind: ChunkKind, messageId: Text, text: Text, extra: nat)
    | Tool(isUpdate: bool, id: string, status: Option<ToolStatus>, content: Option<Text>, part: Option<Part>, rest: nat)
    | Other(tag: string, size: nat)
    | Elided(was: nat, budget: nat)
    | Overflow(dropped: nat, limit: nat)

  const CHUNK_ENVELOPE := 131
  const COUNTER_KEYS := 28
  const LABEL_RESERVE := 64

  function StatusBytes(status: Option<ToolStatus>): nat {
    if status.None? then 0 else match status.value case Executing => 9 case Completed => 9 case Failed => 6
  }

  function Digits(n: nat): nat { if n < 10 then 1 else 1 + Digits(n / 10) }

  function CounterBytes(part: Option<Part>): nat {
    if part.None? then 0 else COUNTER_KEYS + Digits(part.value.index) + Digits(part.value.count)
  }

  /** The UTF-8 size of the payload's JSON. */
  function Encoded(p: Payload): nat {
    match p
    case Chunk(_, messageId, text, extra) => CHUNK_ENVELOPE + Json(messageId) + Json(text) + extra
    case Tool(_, _, status, content, part, rest) =>
      rest + StatusBytes(status) + (if content.Some? then Json(content.value) else 0) + CounterBytes(part)
    case Other(_, size) => size
    case Elided(was, budget) => 142 + Digits(was) + Digits(budget)
    case Overflow(dropped, limit) => 135 + Digits(dropped) + Digits(limit) + if dropped == 1 then 0 else 1
  }

  function AtLeast4(n: int): nat { if n < 4 then 4 else n }

  /** "[result chunk " */
  const LABEL_OPEN: Text := [91, 114, 101, 115, 117, 108, 116, 32, 99, 104, 117, 110, 107, 32]

  function DigitText(n: nat): Text {
    if n < 10 then [48 + n] else DigitText(n / 10) + [48 + n % 10]
  }

  function LabelBody(index: nat, count: nat): Text {
    LABEL_OPEN + DigitText(index) + [47] + DigitText(count) + [93]
  }

  /** "[result chunk i/n]" and a line break. */
  function Label(index: nat, count: nat): Text { LabelBody(index, count) + [10] }

  function ChunkParts(kind: ChunkKind, messageId: Text, parts: seq<Text>): seq<Payload> {
    if parts == [] then [] else [Chunk(kind, messageId, parts[0], 0)] + ChunkParts(kind, messageId, parts[1..])
  }

  function ToolPart(p: Payload, text: Text, index: nat, count: nat): Payload
    requires p.Tool?
  {
    p.(content := Some(Label(index, count) + text), part := Some(Part(index, count)))
  }

  function ToolParts(p: Payload, parts: seq<Text>): seq<Payload>
    requires p.Tool?
  {
    seq(|parts|, i requires 0 <= i < |parts| => ToolPart(p, parts[i], i + 1, |parts|))
  }

  /** How many bytes of text each part of an oversize payload may hold. */
  function Room(p: Payload, text: Text, budget: nat, reserve: nat): nat {
    AtLeast4(budget - (Encoded(p) - Bytes(text)) - reserve)
  }

  function SplitPayload(p: Payload, budget: nat): (parts: seq<Payload>)
  {
    if Encoded(p) <= budget then [p] else
    match p
    case Chunk(kind, messageId, text, _) =>
      ChunkParts(kind, messageId, SplitUtf8(text, Room(p, text, budget, 0)))
    case Tool(true, _, _, Some(content), _, _) =>
      ToolParts(p, SplitUtf8(content, Room(p, content, budget, LABEL_RESERVE)))
    case _ => [Elided(Encoded(p), budget)]
  }

  // ------------------------------------------------------------ text chunks

  function ChunkText(parts: seq<Payload>): Text {
    if parts == [] then [] else (if parts[0].Chunk? then parts[0].text else []) + ChunkText(parts[1..])
  }

  lemma {:induction false} ChunkPartsText(kind: ChunkKind, messageId: Text, parts: seq<Text>)
    ensures ChunkText(ChunkParts(kind, messageId, parts)) == Concat(parts)
    ensures |ChunkParts(kind, messageId, parts)| == |parts|
    ensures forall i :: 0 <= i < |parts| ==>
      ChunkParts(kind, messageId, parts)[i] == Chunk(kind, messageId, parts[i], 0)
  {
    if parts != [] {
      ChunkPartsText(kind, messageId, parts[1..]);
      assert ChunkParts(kind, messageId, parts)[1..] == ChunkParts(kind, messageId, parts[1..]);
    }
  }

  /** A text chunk splits into chunks of the same message whose texts join up to its own. */
  lemma ChunkSplitsLosslessly(p: Payload, budget: nat)
    requires p.Chunk?
    ensures var parts := SplitPayload(p, budget);
      && parts != [] && ChunkText(parts) == p.text
      && forall i :: 0 <= i < |parts| ==>
           parts[i].Chunk? && parts[i].kind == p.kind && parts[i].messageId == p.messageId
  {
    if Encoded(p) <= budget {
      assert [p][1..] == [];
      assert ChunkText([p]) == p.text + ChunkText([p][1..]);
    } else {
      var max := Room(p, p.text, budget, 0);
      SplitIsExact(p.text, max, []);
      ChunkPartsText(p.kind, p.messageId, SplitUtf8(p.text, max));
    }
  }

  /** Whatever the escaping, a part is within the budget, or within 24 bytes of the size the
      frame has with no text at all. */
  lemma ChunkPartsFit(p: Payload, budget: nat, i: nat)
    requires p.Chunk? && i < |SplitPayload(p, budget)|
    ensures var base := CHUNK_ENVELOPE + Json(p.messageId);
      Encoded(SplitPayload(p, budget)[i]) <= if budget > base + 24 then budget else base + 24
  {
    if Encoded(p) > budget {
      var max := Room(p, p.text, budget, 0);
      var parts := SplitUtf8(p.text, max);
      SplitDivides(p.text, max);
      ChunkPartsText(p.kind, p.messageId, parts);
      PieceEscapes(parts, p.text, max, i);
      JsonBounds(parts[i]);
    }
  }

  // ------------------------------------------------------------- tool results

  predicate Splits(p: Payload, budget: nat) {
    p.Tool? && p.isUpdate && p.content.Some? && Encoded(p) > budget
  }

  /** The part texts behind the labels. */
  function ToolTexts(p: Payload, budget: nat): seq<Text>
    requires Splits(p, budget)
  {
    SplitUtf8(p.content.value, Room(p, p.content.value, budget, LABEL_RESERVE))
  }

  /** A tool result splits into frames of the same call, labelled `1/n` to `n/n` in order,
      whose contents behind the labels join up to its own. */
  lemma ToolSplitsLosslessly(p: Payload, budget: nat)
    requires Splits(p, budget)
    ensures var parts, texts := SplitPayload(p, budget), ToolTexts(p, budget);
      && parts != [] && |parts| == |texts| && Concat(texts) == p.content.value
      && forall i :: 0 <= i < |parts| ==>
           && parts[i].Tool? && parts[i].id == p.id && parts[i].status == p.status && parts[i].rest == p.rest
           && parts[i].part == Some(Part(i + 1, |parts|))
           && parts[i].content == Some(Label(i + 1, |parts|) + texts[i])
  {
    SplitIsExact(p.content.value, Room(p, p.content.value, budget, LABEL_RESERVE), []);
    hide Encoded, Label, SplitUtf8, Room, Concat, Bytes, Divides;
  }

  /** Printable ASCII that JSON does not escape. */
  predicate Simple(t: Text) {
    forall i :: 0 <= i < |t| ==> 0x20 <= t[i] < 0x7F && t[i] != 0x22 && t[i] != 0x5C
  }

  lemma {:induction false} SimpleJson(t: Text)
    requires Simple(t)
    ensures Json(t) == |t|
  {
    if t != [] { SimpleJson(t[1..]); }
  }

  lemma {:induction false} DigitTextIsSimple(n: nat)
    ensures Simple(DigitText(n)) && |DigitText(n)| == Digits(n)
  {
    if n >= 10 { DigitTextIsSimple(n / 10); }
  }

  lemma LabelBodyIsSimple(index: nat, count: nat)
    ensures Simple(LabelBody(index, count)) && |LabelBody(index, count)| == 16 + Digits(index) + Digits(count)
  {
    DigitTextIsSimple(index);
    DigitTextIsSimple(count);
    hide Digits, DigitText;
    assert Simple(LABEL_OPEN) && Simple([47]) && Simple([93]);
  }

  /** The label adds its own size to the text behind it. */
  lemma LabelledJson(index: nat, count: nat, text: Text)
    ensures Json(Label(index, count) + text) == 18 + Digits(index) + Digits(count) + Json(text)
  {
    var body := LabelBody(index, count);
    LabelBodyIsSimple(index, count);
    SimpleJson(body);
    hide LabelBody, Digits;
    Unfold([10]);
    JsonAppend(body, [10]);
    assert (body + [10] + text)[|body|] == 10;
    JsonAppend(body + [10], text);
  }

  /** What the label and the counters of one part cost. */
  function Labelling(index: nat, count: nat): nat { 46 + 2 * (Digits(index) + Digits(count)) }

  lemma ToolPartSize(p: Payload, text: Text, index: nat, count: nat)
    requires p.Tool?
    ensures Encoded(ToolPart(p, text, index, count))
      == p.rest + StatusBytes(p.status) + Json(text) + Labelling(index, count)
  {
    LabelledJson(index, count, text);
    hide Json, Label, Digits;
  }

  lemma {:induction false} DigitsGrow(a: nat, b: nat)
    requires a <= b
    ensures Digits(a) <= Digits(b)
    decreases b
  {
    if b >= 10 && a >= 10 { DigitsGrow(a / 10, b / 10); }
  }

  lemma FourDigits(n: nat)
    requires n <= 9_999
    ensures Digits(n) <= 4
  {
    assert Digits(9) == 1 && Digits(99) == 2 && Digits(999) == 3;
    DigitsGrow(n, 9_999);
  }

  /** For any number of parts: the budget, plus whatever the labelling costs beyond the
      reserve; or the frame's size with no content, plus the labelling and 24 bytes. */
  lemma ToolPartsFit(p: Payload, budget: nat, i: nat)
    requires Splits(p, budget) && i < |SplitPayload(p, budget)|
    ensures var base, cost := p.rest + StatusBytes(p.status), Labelling(i + 1, |SplitPayload(p, budget)|);
      || Encoded(SplitPayload(p, budget)[i]) <= budget - LABEL_RESERVE + cost
      || Encoded(SplitPayload(p, budget)[i]) <= base + 24 + cost
  {
    var content := p.content.value;
    var max := Room(p, content, budget, LABEL_RESERVE);
    var parts := SplitUtf8(content, max);
    SplitDivides(content, max);
    PieceEscapes(parts, content, max, i);
    JsonBounds(parts[i]);
    ToolPartSize(p, parts[i], i + 1, |parts|);
    ToolRoom(p, budget);
    hide *;
    assert SplitPayload(p, budget)[i] == ToolPart(p, parts[i], i + 1, |parts|) && |SplitPayload(p, budget)| == |parts|
      by { ToolSplitsInto(p, budget, i); }
  }

  lemma ToolSplitsInto(p: Payload, budget: nat, i: nat)
    requires Splits(p, budget) && i < |SplitPayload(p, budget)|
    ensures |ToolTexts(p, budget)| == |SplitPayload(p, budget)|
    ensures SplitPayload(p, budget)[i] == ToolPart(p, ToolTexts(p, budget)[i], i + 1, |SplitPayload(p, budget)|)
  {
    hide Encoded, Label, SplitUtf8, Room, ToolPart;
  }

  lemma ToolRoom(p: Payload, budget: nat)
    requires Splits(p, budget)
    ensures var content := p.content.value;
      var max := Room(p, content, budget, LABEL_RESERVE);
      max == 4 || max <= budget - LABEL_RESERVE - p.rest - StatusBytes(p.status) - Json(content) + Bytes(content)
  {
  }

  /** Up to 9999 parts the reserve is enough. */
  lemma ToolPartsFitTheBudget(p: Payload, budget: nat, i: nat)
    requires Splits(p, budget) && i < |SplitPayload(p, budget)| <= 9_999
    ensures var base := p.rest + StatusBytes(p.status);
      Encoded(SplitPayload(p, budget)[i]) <= if budget > base + 88 then budget else base + 88
  {
    ToolPartsFit(p, budget, i);
    FourDigits(i + 1);
    FourDigits(|SplitPayload(p, budget)|);
  }

  // -------------------------------------------------- where the reserve runs out

  lemma {:induction false} SimpleBytes(t: Text)
    requires Simple(t)
    ensures Bytes(t) == |t|
  {
    if t != [] { SimpleBytes(t[..|t| - 1]); }
  }

  lemma {:induction false} SimpleTake(t: Text, room: nat)
    requires Simple(t)
    ensures Take(t, room) == if |t| < room then |t| else room
  {
    if t != [] {
      assert CharLen(t) == 1;
      SimpleBytes(t[..1]);
      if room > 0 { SimpleTake(t[1..], room - 1); }
    }
  }

  /** Full pieces of plain text and a last one, `len` units in all. */
  ghost predicate FullPieces(ps: seq<Text>, len: nat, max: nat) {
    && |ps| >= 1 && (|ps| - 1) * max < len <= |ps| * max
    && (forall i :: 0 <= i < |ps| - 1 ==> |ps[i]| == max)
    && |ps[|ps| - 1]| == len - (|ps| - 1) * max
    && (forall i :: 0 <= i < |ps| ==> Simple(ps[i]))
  }

  lemma OneMoreFull(head: Text, ps: seq<Text>, len: nat, max: nat)
    requires FullPieces(ps, len, max) && |head| == max && Simple(head)
    ensures FullPieces([head] + ps, max + len, max)
  {
    hide Simple;
    var all := [head] + ps;
    assert (|all| - 1) * max == (|ps| - 1) * max + max && |all| * max == |ps| * max + max;
    assert all[|all| - 1] == ps[|ps| - 1];
  }

  /** Plain text is cut into full pieces and a last one. */
  lemma {:induction false} SimplePieces(t: Text, max: nat)
    requires Simple(t) && max >= 4 && t != []
    ensures FullPieces(Pieces(t, max), |t|, max)
    decreases |t|
  {
    SimpleTake(t, max);
    PiecesUnfold(t, max);
    var k := Take(t, max);
    assert Simple(t[..k]) && Simple(t[k..]);
    hide Simple, Take, Pieces;
    if k == |t| {
      NoPieces(max);
      assert t[..k] == t && t[k..] == [];
      OnlyPiece(t, max);
    } else {
      SimplePieces(t[k..], max);
      OneMoreFull(t[..k], Pieces(t[k..], max), |t| - k, max);
    }
  }

  lemma OnlyPiece(t: Text, max: nat)
    requires 0 < |t| <= max && Simple(t)
    ensures FullPieces([t] + [], |t|, max)
  {
  }

  lemma DigitsOfTenThousand()
    ensures Digits(10_000) == 5 && Digits(9_999) == 4
  {
    assert Digits(10) == 2 && Digits(100) == 3 && Digits(1_000) == 4;
    assert Digits(99) == 2 && Digits(999) == 3;
  }

  /** A plain tool result: no escapes in it, and not split before. */
  predicate PlainResult(p: Payload, budget: nat) {
    Splits(p, budget) && Simple(p.content.value) && p.part.None?
    && budget >= p.rest + StatusBytes(p.status) + LABEL_RESERVE + 4
  }

  /** What the reserve leaves for the text of one part. */
  function PlainRoom(p: Payload, budget: nat): nat
    requires PlainResult(p, budget)
  {
    budget - p.rest - StatusBytes(p.status) - LABEL_RESERVE
  }

  lemma PlainTexts(p: Payload, budget: nat)
    requires PlainResult(p, budget)
    ensures var content, room := p.content.value, PlainRoom(p, budget);
      && content != [] && ToolTexts(p, budget) == Pieces(content, room)
      && |ToolTexts(p, budget)| == |SplitPayload(p, budget)|
  {
    var content := p.content.value;
    SimpleJson(content);
    SimpleBytes(content);
    assert Room(p, content, budget, LABEL_RESERVE) == PlainRoom(p, budget);
    ToolSplitsLosslessly(p, budget);
    hide Json, Bytes, Digits, Label;
  }

  /** The size of one part of a plain result. */
  lemma PlainPartSize(p: Payload, budget: nat, i: nat)
    requires PlainResult(p, budget) && i < |SplitPayload(p, budget)|
    ensures var n, texts := |SplitPayload(p, budget)|, ToolTexts(p, budget);
      && i < |texts| && |texts| == n
      && Encoded(SplitPayload(p, budget)[i])
           == p.rest + StatusBytes(p.status) + |texts[i]| + Labelling(i + 1, n)
  {
    PlainTexts(p, budget);
    SimplePieces(p.content.value, PlainRoom(p, budget));
    ToolSplitsInto(p, budget, i);
    var text := ToolTexts(p, budget)[i];
    SimpleJson(text);
    ToolPartSize(p, text, i + 1, |SplitPayload(p, budget)|);
    hide *;
  }

  /** Every part of a plain tool result keeps to the budget exactly when the result is no longer
      than ten thousand times the room the reserve leaves, less two: the 64 bytes do not pay for
      two numbers of five digits. */
  lemma PlainPartsFitExactlyWhen(p: Payload, budget: nat)
    requires PlainResult(p, budget)
    ensures (forall i :: 0 <= i < |SplitPayload(p, budget)| ==> Encoded(SplitPayload(p, budget)[i]) <= budget)
      <==> |p.content.value| <= 10_000 * PlainRoom(p, budget) - 2
  {
    var room, parts := PlainRoom(p, budget), SplitPayload(p, budget);
    PlainTexts(p, budget);
    SimplePieces(p.content.value, room);
    var n := |parts|;
    forall i | 0 <= i < n ensures PartFits(p, budget, i) { PlainPartFits(p, budget, i); }
    hide SplitPayload, Encoded, PlainRoom, PlainResult, Pieces, Simple;
    CountOf(|p.content.value|, room, n);
    if |p.content.value| <= 10_000 * room - 2 {
      forall i | 0 <= i < n ensures Encoded(parts[i]) <= budget { assert PartFits(p, budget, i); }
    } else {
      assert PartFits(p, budget, 9_999);
    }
  }

  /** A part keeps to the budget unless it is the ten-thousandth or later: then only if it is the
      last of ten thousand and two bytes short of full. */
  ghost predicate PartFits(p: Payload, budget: nat, i: nat)
    requires PlainResult(p, budget) && i < |SplitPayload(p, budget)|
  {
    var n, room, len := |SplitPayload(p, budget)|, PlainRoom(p, budget), |p.content.value|;
    && (n <= 9_999 || (i < 9_999 && n == 10_000) ==> Encoded(SplitPayload(p, budget)[i]) <= budget)
    && (n == 10_000 && i == 9_999 ==> (Encoded(SplitPayload(p, budget)[i]) <= budget <==> len <= 10_000 * room - 2))
    && (n > 10_000 && i == 9_999 ==> Encoded(SplitPayload(p, budget)[i]) > budget)
  }

  lemma PlainPartFits(p: Payload, budget: nat, i: nat)
    requires PlainResult(p, budget) && i < |SplitPayload(p, budget)|
    ensures PartFits(p, budget, i)
  {
    var n, room := |SplitPayload(p, budget)|, PlainRoom(p, budget);
    PlainTexts(p, budget);
    SimplePieces(p.content.value, room);
    PlainPartSize(p, budget, i);
    var size := |ToolTexts(p, budget)[i]|;
    PieceSize(Pieces(p.content.value, room), |p.content.value|, room, i);
    LabellingCosts(i, n);
    assert Encoded(SplitPayload(p, budget)[i]) == budget - room - LABEL_RESERVE + size + Labelling(i + 1, n);
    hide *;
    hide Pieces;
    ByCount(p, budget, i, size);
  }

  lemma PieceSize(ps: seq<Text>, len: nat, max: nat, i: nat)
    requires FullPieces(ps, len, max) && i < |ps|
    ensures |ps[i]| <= max && (i < |ps| - 1 ==> |ps[i]| == max)
    ensures |ps| == 10_000 && i == 9_999 ==> |ps[i]| == len - 9_999 * max
  {
    hide Simple;
    assert |ps| * max == (|ps| - 1) * max + max;
  }

  lemma ByCount(p: Payload, budget: nat, i: nat, size: nat)
    requires PlainResult(p, budget) && i < |SplitPayload(p, budget)|
    requires var n, room := |SplitPayload(p, budget)|, PlainRoom(p, budget);
      && Encoded(SplitPayload(p, budget)[i]) == budget - room - LABEL_RESERVE + size + Labelling(i + 1, n)
      && size <= room && (i < n - 1 ==> size == room)
      && (n == 10_000 && i == 9_999 ==> size == |p.content.value| - 9_999 * room)
    ensures PartFits(p, budget, i)
  {
    LabellingCosts(i, |SplitPayload(p, budget)|);
    LabellingIs(|SplitPayload(p, budget)|);
    hide SplitPayload, Encoded, PlainRoom, PlainResult, Labelling;
  }

  lemma LabellingIs(n: nat)
    ensures n == 10_000 ==> Labelling(10_000, n) == LABEL_RESERVE + 2
  {
    DigitsOfTenThousand();
  }

  /** The labelling costs two bytes less than the reserve up to there, and two more from then on. */
  lemma LabellingCosts(i: nat, n: nat)
    requires i < n
    ensures n <= 9_999 ==> Labelling(i + 1, n) <= LABEL_RESERVE - 2
    ensures n == 10_000 ==> Labelling(i + 1, n) <= if i < 9_999 then LABEL_RESERVE else LABEL_RESERVE + 2
    ensures n >= 10_000 && i == 9_999 ==> Labelling(i + 1, n) >= LABEL_RESERVE + 2
  {
    DigitsOfTenThousand();
    hide Digits;
    if n <= 9_999 { FourDigits(n); }
    if i + 1 <= 9_999 { FourDigits(i + 1); }
    if n > 10_000 { DigitsGrow(10_000, n); }
  }

  lemma CountOf(len: nat, room: nat, n: nat)
    requires room >= 4 && n >= 1 && (n - 1) * room < len <= n * room
    ensures len <= 10_000 * room - 2 ==> n <= 10_000
    ensures len > 10_000 * room - 2 ==> n >= 10_000
  {
    if n > 10_000 { assert (n - 1) * room >= 10_000 * room; }
    if n < 10_000 { assert n * room <= 9_999 * room; }
  }

  /** One such result: forty thousand bytes over a room of four. */
  lemma AToolResultCanOverflow() returns (p: Payload, budget: nat, i: nat)
    ensures PlainResult(p, budget) && i < |SplitPayload(p, budget)| && Encoded(SplitPayload(p, budget)[i]) > budget
  {
    var content: Text := seq(40_000, _ => 0x61);
    p, budget := Tool(true, "call", Some(Completed), Some(content), None, 100), 177;
    assert Simple(content);
    SimpleJson(content);
    assert Splits(p, budget) by { hide Json, Simple; }
    hide Json, Simple;
    PlainPartsFitExactlyWhen(p, budget);
    assert PlainRoom(p, budget) == 4 by { hide SplitPayload; }
    hide SplitPayload, Encoded;
    i :| 0 <= i < |SplitPayload(p, budget)| && Encoded(SplitPayload(p, budget)[i]) > budget;
  }
}
