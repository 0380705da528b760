/** The text form of an output's identity, `turn:message:chunk`, and how it is read back. */
module LogicalIds {

  function Digit(d: nat): char
    requires d < 10
  {
    (d + '0' as int) as char
  }

  predicate IsDigit(c: char) { '0' <= c <= '9' }

  function Decimal(n: nat): (s: string)
    ensures s != "" && forall i :: 0 <= i < |s| ==> IsDigit(s[i])
  {
    if n < 10 then [Digit(n)] else Decimal(n / 10) + [Digit(n % 10)]
  }

  /** `Number(text)` for a run of digits (none reads as zero); any other text counts as 0. */
  function NumberOf(text: string): nat {
    if text == "" then 0
    else if exists i :: 0 <= i < |text| && !IsDigit(text[i]) then 0
    else Digits(text)
  }

  function Digits(text: string): nat
    requires forall i :: 0 <= i < |text| ==> IsDigit(text[i])
  {
    if text == "" then 0 else
    assert IsDigit(text[|text| - 1]);
    10 * Digits(text[..|text| - 1]) + (text[|text| - 1] as int - '0' as int)
  }

  function IndexOf(text: string, c: char): (k: int)
    ensures -1 <= k < |text|
  {
    if text == "" then -1 else if text[0] == c then 0 else
    var rest := IndexOf(text[1..], c);
    if rest < 0 then -1 else rest + 1
  }

  function LastIndexOf(text: string, c: char): (k: int)
    ensures -1 <= k < |text|
  {
    if text == "" then -1 else if text[|text| - 1] == c then |text| - 1 else LastIndexOf(text[..|text| - 1], c)
  }

  function LogicalId(turnId: string, messageId: string, chunk: nat): string {
    turnId + ":" + messageId + ":" + Decimal(chunk)
  }

  datatype Parts = Parts(turnId: string, ordinal: nat)

  function SplitLogicalId(id: string): Parts {
    var first, last := IndexOf(id, ':'), LastIndexOf(id, ':');
    if first <= 0 || last == first then Parts(id, 0)
    else Parts(id[..first], NumberOf(id[last + 1..]))
  }

  lemma {:induction false} IndexOfInPrefix(a: string, rest: string, c: char)
    ensures c in a ==> 0 <= IndexOf(a + rest, c) < |a|
    ensures c !in a && rest != "" && rest[0] == c ==> IndexOf(a + rest, c) == |a|
  {
    if a == "" {
      assert a + rest == rest;
    } else {
      IndexOfInPrefix(a[1..], rest, c);
      assert (a + rest)[1..] == a[1..] + rest;
    }
  }

  lemma {:induction false} LastIndexOfIsLast(text: string, c: char, k: nat)
    requires k < |text| && text[k] == c && c !in text[k + 1..]
    ensures LastIndexOf(text, c) == k
  {
    if k < |text| - 1 {
      assert text[|text| - 1] == text[k + 1..][|text| - k - 2];
      assert text[..|text| - 1][k + 1..] == text[k + 1..][..|text| - k - 2];
      LastIndexOfIsLast(text[..|text| - 1], c, k);
    }
  }

  lemma {:induction false} DigitsReadDecimal(n: nat)
    ensures Digits(Decimal(n)) == n
  {
    if n >= 10 {
      DigitsReadDecimal(n / 10);
      assert Decimal(n)[..|Decimal(n)| - 1] == Decimal(n / 10);
    }
  }

  /** Reading a printed id gives back its turn and its chunk exactly when the turn id is not
      empty and holds no colon; the message id may hold any number of them. */
  lemma SplitUndoesPrintExactlyWhen(turnId: string, messageId: string, chunk: nat)
    ensures SplitLogicalId(LogicalId(turnId, messageId, chunk)) == Parts(turnId, chunk)
      <==> turnId != "" && ':' !in turnId
  {
    var id, n := LogicalId(turnId, messageId, chunk), Decimal(chunk);
    var last := |turnId| + 1 + |messageId|;
    var rest := ":" + messageId + ":" + n;
    assert id == turnId + rest;
    assert id[last] == ':' && id[last + 1..] == n;
    assert ':' !in n by { assert forall i :: 0 <= i < |n| ==> IsDigit(n[i]); }
    LastIndexOfIsLast(id, ':', last);
    IndexOfInPrefix(turnId, rest, ':');
    DigitsReadDecimal(chunk);
    var first := IndexOf(id, ':');
    assert |id| > |turnId|;
    if ':' in turnId {
      assert first > 0 ==> |SplitLogicalId(id).turnId| == first;
    } else {
      assert id[..first] == turnId;
    }
  }
}
