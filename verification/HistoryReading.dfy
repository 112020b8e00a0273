/** A reader of the rendered history, written from the JSON it is meant to be: whatever is rendered is read
    back, so no text of a message can be taken for anything else. */
module HistoryReading {
  import opened Text
  import Ranking
  import opened History
  import opened HistoryExact

  /** What was read, and what follows it. */
  datatype Parsed<+T> = Failed | Got(value: T, rest: string) {
    predicate IsFailure() {
      Failed?
    }

    function PropagateFailure<U>(): Parsed<U> {
      Failed
    }

    function Extract(): Parsed<T> {
      this
    }
  }

  // ---- The reader ----

  function Literal(text: string, s: string): Parsed<()> {
    if text <= s then Got((), s[|text|..]) else Failed
  }

  /** The characters of a string up to its closing quote. */
  function Characters(s: string): (p: Parsed<string>)
    ensures p.Got? ==> |p.rest| < |s|
    decreases |s|
  {
    if s != "" && s[0] == '\"' then Got("", s[1..])
    else
      match ReadOne(s)
      case None => Failed
      case Some(Read(c, n)) =>
        if n == 0 || n > |s| then Failed
        else
          var more :- Characters(s[n..]);
          Got([c] + more.value, more.rest)
  }

  function Quoted(s: string): Parsed<string> {
    var quote :- Literal("\"", s);
    Characters(quote.rest)
  }

  predicate IsDigit(c: char) {
    '0' <= c <= '9'
  }

  function DigitsIn(s: string): (n: nat)
    ensures n <= |s|
  {
    if s != "" && IsDigit(s[0]) then 1 + DigitsIn(s[1..]) else 0
  }

  function Natural(s: string): Parsed<nat> {
    var n := DigitsIn(s);
    if n == 0 then Failed else Got(DigitsValue(s[..n]), s[n..])
  }

  function Integer(s: string): Parsed<int> {
    if s != "" && s[0] == '-' then
      var n :- Natural(s[1..]);
      Got(-(n.value as int), n.rest)
    else
      var n :- Natural(s);
      Got(n.value as int, n.rest)
  }

  function RoleOf(s: string): Parsed<Role> {
    var name :- Quoted(s);
    if name.value == "system" then Got(System, name.rest)
    else if name.value == "user" then Got(User, name.rest)
    else if name.value == "assistant" then Got(Assistant, name.rest)
    else if name.value == "tool" then Got(Tool, name.rest)
    else Failed
  }

  function Boolean(s: string): Parsed<bool> {
    if "true" <= s then Got(true, s[4..]) else if "false" <= s then Got(false, s[5..]) else Failed
  }

  datatype Head = Head(id: string, sequence: int, generation: int, role: Role)

  function ReadHead(s: string): Parsed<Head> {
    var start :- Literal("{\"message_id\":", s);
    var id :- Quoted(start.rest);
    var first :- Literal(",\"sequence\":", id.rest);
    var sequence :- Integer(first.rest);
    var second :- Literal(",\"generation\":", sequence.rest);
    var generation :- Integer(second.rest);
    var third :- Literal(",\"role\":", generation.rest);
    var role :- RoleOf(third.rest);
    var last :- Literal(",\"content\":", role.rest);
    Got(Head(id.value, sequence.value, generation.value, role.value), last.rest)
  }

  function ReadMessage(s: string): Parsed<Message> {
    var head :- ReadHead(s);
    var content :- Quoted(head.rest);
    var mark :- Literal(",\"truncated\":", content.rest);
    var truncated :- Boolean(mark.rest);
    var close :- Literal("}", truncated.rest);
    var h := head.value;
    Got(Message(h.id, h.sequence, h.generation, h.role, content.value, truncated.value), close.rest)
  }

  /** Messages separated by commas, at least one. */
  function ReadList(s: string): Parsed<seq<Message>>
    decreases |s|
  {
    var m :- ReadMessage(s);
    if m.rest != "" && m.rest[0] == ',' && |m.rest| <= |s| then
      var ms :- ReadList(m.rest[1..]);
      Got([m.value] + ms.value, ms.rest)
    else Got([m.value], m.rest)
  }

  function ReadHistory(s: string): Option<seq<Message>> {
    match Literal(OPENING + "\n[", s)
    case Failed => None
    case Got(_, s1) =>
      match ReadList(s1)
      case Failed => None
      case Got(ms, s2) => if s2 == "]\n" + CLOSING then Some(ms) else None
  }

  // ---- Each part is read back ----

  lemma LiteralReads(text: string, rest: string)
    ensures Literal(text, text + rest) == Got((), rest)
  {
  }

  lemma {:induction false} CharactersRead(text: string, rest: string)
    ensures Characters(Escape(text) + ("\"" + rest)) == Got(text, rest)
  {
    hide ReadOne, EscapeOne;
    var tail := "\"" + rest;
    if text == "" {
      assert Escape(text) + tail == tail;
    } else {
      var e, more := EscapeOne(text[0]), Escape(text[1..]);
      var s := e + (more + tail);
      assert Escape(text) + tail == s;
      EscapeReads(text[0], more + tail);
      NoQuote(text[0]);
      assert s[0] == e[0] && s[|e|..] == more + tail;
      CharactersRead(text[1..], rest);
      assert text == [text[0]] + text[1..];
    }
  }

  lemma NoQuote(c: char)
    ensures EscapeOne(c)[0] != '\"'
  {
  }

  lemma QuotedReads(text: string, rest: string)
    ensures Quoted(Quote(text) + rest) == Got(text, rest)
  {
    hide Escape, Characters;
    assert Quote(text) + rest == "\"" + (Escape(text) + ("\"" + rest));
    LiteralReads("\"", Escape(text) + ("\"" + rest));
    CharactersRead(text, rest);
  }

  predicate AllDigits(s: string) {
    forall i | 0 <= i < |s| :: IsDigit(s[i])
  }

  lemma {:induction false} DigitsAreDigits(n: nat)
    ensures AllDigits(Digits(n)) && Digits(n) != ""
  {
    if n >= 10 {
      DigitsAreDigits(n / 10);
    }
  }

  /** Something that does not go on with a digit. */
  predicate Apart(rest: string) {
    rest != "" && !IsDigit(rest[0])
  }

  lemma {:induction false} DigitsCounted(s: string, rest: string)
    requires AllDigits(s) && Apart(rest)
    ensures DigitsIn(s + rest) == |s|
  {
    if s == "" {
      assert s + rest == rest;
    } else {
      assert (s + rest)[1..] == s[1..] + rest;
      DigitsCounted(s[1..], rest);
    }
  }

  lemma IntegerReads(n: int, rest: string)
    requires Apart(rest)
    ensures Integer(Number(n) + rest) == Got(n, rest)
  {
    hide Digits, DigitsValue, DigitsIn, AllDigits;
    var k: nat := if n < 0 then -n else n;
    var d := Digits(k);
    DigitsAreDigits(k);
    DigitsCounted(d, rest);
    DigitsReadBack(k);
    assert (d + rest)[..|d|] == d && (d + rest)[|d|..] == rest;
    if n < 0 {
      assert Number(n) + rest == "-" + (d + rest);
      assert ("-" + (d + rest))[1..] == d + rest;
    } else {
      assert (d + rest)[0] == d[0];
      FirstDigit(d);
    }
  }

  lemma FirstDigit(d: string)
    requires AllDigits(d) && d != ""
    ensures d[0] != '-'
  {
  }

  lemma RoleReads(r: Role, rest: string)
    ensures RoleOf(Quote(RoleName(r)) + rest) == Got(r, rest)
  {
    hide Quoted, Quote;
    QuotedReads(RoleName(r), rest);
  }

  lemma BooleanReads(b: bool, rest: string)
    ensures Boolean(Flag(b) + rest) == Got(b, rest)
  {
    var s := Flag(b) + rest;
    if !b {
      assert s[0] == 'f';
    }
  }

  // ---- Whole messages ----

  function HeadOf(m: Message): Head {
    Head(m.id, m.sequence, m.generation, m.role)
  }

  /** What follows the identifier in the rendering of `m`, before its content. */
  function FromSequence(m: Message, rest: string): string {
    ",\"sequence\":" + (Number(m.sequence) + FromGeneration(m, rest))
  }

  function FromGeneration(m: Message, rest: string): string {
    ",\"generation\":" + (Number(m.generation) + FromRole(m, rest))
  }

  function FromRole(m: Message, rest: string): string {
    ",\"role\":" + (Quote(RoleName(m.role)) + (",\"content\":" + rest))
  }

  lemma HeadLayout(m: Message, rest: string)
    ensures BeforeContent(m) + rest == "{\"message_id\":" + (Quote(m.id) + FromSequence(m, rest))
  {
    hide Quote, Number, RoleName;
  }

  lemma HeadReads(m: Message, rest: string)
    ensures ReadHead(BeforeContent(m) + rest) == Got(HeadOf(m), rest)
  {
    hide Quote, Number, RoleName, Literal, Quoted, Integer, RoleOf, BeforeContent;
    HeadLayout(m, rest);
    LiteralReads("{\"message_id\":", Quote(m.id) + FromSequence(m, rest));
    QuotedReads(m.id, FromSequence(m, rest));
    LiteralReads(",\"sequence\":", Number(m.sequence) + FromGeneration(m, rest));
    IntegerReads(m.sequence, FromGeneration(m, rest));
    LiteralReads(",\"generation\":", Number(m.generation) + FromRole(m, rest));
    IntegerReads(m.generation, FromRole(m, rest));
    LiteralReads(",\"role\":", Quote(RoleName(m.role)) + (",\"content\":" + rest));
    RoleReads(m.role, ",\"content\":" + rest);
    LiteralReads(",\"content\":", rest);
  }

  function Flag(b: bool): string {
    if b then "true" else "false"
  }

  lemma MessageLayout(m: Message, rest: string)
    ensures RenderOne(m) + rest ==
      BeforeContent(m) + (Quote(m.content) + (",\"truncated\":" + (Flag(m.truncated) + ("}" + rest))))
  {
    hide Quote, BeforeContent;
  }

  lemma MessageReads(m: Message, rest: string)
    ensures ReadMessage(RenderOne(m) + rest) == Got(m, rest)
  {
    hide Quote, Literal, Quoted, ReadHead, Boolean, BeforeContent, RenderOne;
    MessageLayout(m, rest);
    var s4 := "}" + rest;
    var s3 := Flag(m.truncated) + s4;
    var s2 := ",\"truncated\":" + s3;
    HeadReads(m, Quote(m.content) + s2);
    QuotedReads(m.content, s2);
    LiteralReads(",\"truncated\":", s3);
    BooleanReads(m.truncated, s4);
    LiteralReads("}", rest);
  }

  lemma {:induction false} ListReads(ms: seq<Message>, rest: string)
    requires ms != [] && rest != "" && rest[0] != ','
    ensures ReadList(RenderList(ms) + rest) == Got(ms, rest)
  {
    hide RenderOne, ReadMessage;
    var m := ms[0];
    if |ms| == 1 {
      assert ms == [m] && RenderOne(m) + "" == RenderOne(m);
      MessageReads(m, rest);
    } else {
      var more := RenderList(ms[1..]) + rest;
      assert RenderList(ms) + rest == RenderOne(m) + ("," + more);
      MessageReads(m, "," + more);
      assert ("," + more)[1..] == more;
      ListReads(ms[1..], rest);
      assert ms == [m] + ms[1..];
    }
  }

  /** The rendered history is read back message by message. */
  lemma RenderedReadsBack(ms: seq<Message>)
    requires ms != []
    ensures ReadHistory(Render(ms)) == Some(ms)
  {
    hide RenderList, ReadList, Literal, OPENING, CLOSING;
    var tail := "]\n" + CLOSING;
    assert Render(ms) == (OPENING + "\n[") + (RenderList(ms) + tail);
    LiteralReads(OPENING + "\n[", RenderList(ms) + tail);
    ListReads(ms, tail);
  }

  /** What the compiler hands to the prompt is nothing, or a text that reads back as the messages it lists; a
      policy that allows no message, no character or no time gives nothing. */
  lemma CompiledReadsBack(p: Policy, records: seq<Record>, sessionId: string, before: int)
    ensures var h := Compiled(p, records, sessionId, before);
      && (h.messages == [] ==> h.rendered == "")
      && (h.messages != [] ==> ReadHistory(h.rendered) == Some(h.messages))
      && (p.maxMessages == 0 || p.maxChars == 0 || p.loadTimeout == 0 ==> h.messages == [])
  {
    hide Render, ReadHistory, Select, Eligible, Ranking.Sort;
    var h := Compiled(p, records, sessionId, before);
    if h.messages != [] {
      RenderedReadsBack(h.messages);
    }
  }
}
