/** Which records are eligible, and that what is rendered can be read back. */
module HistoryExact {
  import opened Text
  import opened Ranking
  import opened History

  // ---- Eligibility ----

  /** The record counts: of this session and the first with its identifier there, said by the user or the
      assistant, of an earlier generation, and not blank. */
  predicate Counts(records: seq<Record>, k: nat, sessionId: string, before: int)
    requires k < |records|
  {
    var r := records[k];
    && r.sessionId == sessionId
    && (forall i | 0 <= i < k :: records[i].sessionId == sessionId ==> records[i].id != r.id)
    && (r.role == User || r.role == Assistant)
    && r.generation.Some? && 0 <= r.generation.value && r.generation.value < before
    && Strip(r.content) != ""
  }

  /** What is kept of a record: its stripped content, cut to the limit for one message. */
  predicate Keeps(p: Policy, r: Record, m: Message) {
    && m.id == r.id && m.sequence == r.sequence && Some(m.generation) == r.generation && m.role == r.role
    && m.content <= Strip(r.content) && |m.content| <= p.maxMessageChars
    && (m.truncated <==> |m.content| < |Strip(r.content)|)
    && (m.truncated ==> |m.content| == p.maxMessageChars)
  }

  function Counted(records: seq<Record>, n: nat, sessionId: string, before: int): seq<nat>
    requires n <= |records|
  {
    if n == 0 then []
    else Counted(records, n - 1, sessionId, before) + if Counts(records, n - 1, sessionId, before) then [n - 1] else []
  }

  ghost predicate KeepsEach(p: Policy, records: seq<Record>, at: seq<nat>, ms: seq<Message>) {
    |at| == |ms| && forall i | 0 <= i < |at| :: at[i] < |records| && Keeps(p, records[at[i]], ms[i])
  }

  lemma SeenExactly(records: seq<Record>, k: nat, sessionId: string)
    requires k < |records|
    ensures Seen(records[..k], sessionId, records[k].id) <==>
      exists i | 0 <= i < k :: records[i].sessionId == sessionId && records[i].id == records[k].id
  {
    var front := records[..k];
    if Seen(front, sessionId, records[k].id) {
      var i :| 0 <= i < |front| && front[i].sessionId == sessionId && front[i].id == records[k].id;
      assert records[i] == front[i];
    }
    if i :| 0 <= i < k && records[i].sessionId == sessionId && records[i].id == records[k].id {
      assert front[i] == records[i];
    }
  }

  lemma QualifiesExactly(records: seq<Record>, k: nat, sessionId: string, before: int)
    requires k < |records|
    ensures Qualifies(records[k], records[..k], sessionId, before) <==> Counts(records, k, sessionId, before)
  {
    hide Strip, Seen;
    SeenExactly(records, k, sessionId);
  }

  lemma BoundedKeeps(p: Policy, r: Record)
    requires r.generation.Some?
    ensures Keeps(p, r, Bounded(p, r))
  {
    hide Strip;
  }

  /** The eligible messages are exactly those of the records that count, in order. */
  lemma {:induction false} EligibleExactly(p: Policy, records: seq<Record>, n: nat, sessionId: string, before: int)
    requires n <= |records|
    ensures KeepsEach(p, records, Counted(records, n, sessionId, before), Eligible(p, records[..n], sessionId, before))
  {
    hide Keeps, Counts, Qualifies, Bounded;
    if n > 0 {
      var k := n - 1;
      EligibleExactly(p, records, k, sessionId, before);
      var front := records[..n];
      assert front[..k] == records[..k] && front[k] == records[k];
      QualifiesExactly(records, k, sessionId, before);
      if Counts(records, k, sessionId, before) {
        assert records[k].generation.Some? by { QualifiedGeneration(records[k], records[..k], sessionId, before); }
        BoundedKeeps(p, records[k]);
      }
    }
  }

  lemma QualifiedGeneration(r: Record, earlier: seq<Record>, sessionId: string, before: int)
    requires Qualifies(r, earlier, sessionId, before)
    ensures r.generation.Some?
  {
    hide Strip, Seen;
  }

  // ---- Reading back ----

  predicate IsHex(c: char) {
    '0' <= c <= '9' || 'a' <= c <= 'f'
  }

  function HexValue(c: char): nat
    requires IsHex(c)
  {
    if c <= '9' then c as int - '0' as int else c as int - 'a' as int + 10
  }

  datatype Read = Read(value: char, length: nat)

  /** One character of a JSON string, as a reader takes it: plain, or an escape. A raw quote or control
      character is not allowed. */
  function ReadOne(s: string): Option<Read> {
    if s == "" || s[0] == '\"' || (s[0] as int) < 32 then None
    else if s[0] != '\\' then Some(Read(s[0], 1))
    else if |s| < 2 then None
    else if s[1] == '\"' || s[1] == '\\' then Some(Read(s[1], 2))
    else if s[1] == 'n' then Some(Read('\n', 2))
    else if s[1] == 'r' then Some(Read('\r', 2))
    else if s[1] == 't' then Some(Read('\t', 2))
    else if s[1] == 'b' then Some(Read(8 as char, 2))
    else if s[1] == 'f' then Some(Read(12 as char, 2))
    else if s[1] == 'u' && |s| >= 6 && s[2] == '0' && s[3] == '0' && IsHex(s[4]) && IsHex(s[5])
    then Some(Read((16 * HexValue(s[4]) + HexValue(s[5])) as char, 6))
    else None
  }

  function Unescape(s: string): Option<string>
    decreases |s|
  {
    if s == "" then Some("")
    else
      match ReadOne(s)
      case None => None
      case Some(Read(c, n)) =>
        if n == 0 || n > |s| then None
        else
          match Unescape(s[n..])
          case None => None
          case Some(rest) => Some([c] + rest)
  }

  lemma HexDigitIs(n: nat)
    requires n < 16
    ensures IsHex(HexDigit(n)) && HexValue(HexDigit(n)) == n
  {
  }

  lemma EscapeReads(c: char, rest: string)
    ensures ReadOne(EscapeOne(c) + rest) == Some(Read(c, |EscapeOne(c)|))
  {
    var e := EscapeOne(c);
    var s := e + rest;
    assert forall i | 0 <= i < |e| :: s[i] == e[i];
    HexDigitIs(c as int / 16 % 16);
    HexDigitIs(c as int % 16);
  }

  /** Every text survives being escaped, so it stays one JSON string. */
  lemma {:induction false} EscapedReadsBack(text: string)
    ensures Unescape(Escape(text)) == Some(text)
  {
    hide EscapeOne, ReadOne;
    if text != "" {
      var e, rest := EscapeOne(text[0]), Escape(text[1..]);
      EscapeReads(text[0], rest);
      EscapedReadsBack(text[1..]);
      assert (e + rest)[|e|..] == rest;
      assert text == [text[0]] + text[1..];
    }
  }

  function DigitsValue(s: string): nat {
    if s == "" then 0
    else DigitsValue(s[..|s| - 1]) * 10 + if '0' <= s[|s| - 1] <= '9' then s[|s| - 1] as int - '0' as int else 0
  }

  lemma ValueOfLast(front: string, d: nat)
    requires d < 10
    ensures DigitsValue(front + [('0' as int + d) as char]) == DigitsValue(front) * 10 + d
  {
    var x := ('0' as int + d) as char;
    assert (front + [x])[..|front|] == front && (front + [x])[|front|] == x;
    assert x as int - '0' as int == d;
  }

  /** Numbers are written in decimal. */
  lemma {:induction false} DigitsReadBack(n: nat)
    ensures DigitsValue(Digits(n)) == n
  {
    assert DigitsValue("") == 0;
    hide DigitsValue;
    if n < 10 {
      ValueOfLast("", n);
    } else {
      DigitsReadBack(n / 10);
      ValueOfLast(Digits(n / 10), n % 10);
    }
  }
}
