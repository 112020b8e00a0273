/** Recent conversation as prompt data: the newest messages that fit, each cut to a prefix if need be. */
module History {
  import opened Text
  import opened Ranking

  datatype Role = System | User | Assistant | Tool

  /** A stored message; `generation` is `None` when the metadata holds no integer. */
  datatype Record = Record(id: string, sessionId: string, sequence: int, role: Role, generation: Option<int>, content: string)

  datatype Message = Message(id: string, sequence: int, generation: int, role: Role, content: string, truncated: bool)

  datatype Policy = Policy(maxMessages: nat, maxChars: nat, maxMessageChars: nat, loadTimeout: nat)

  datatype History = History(messages: seq<Message>, rendered: string)

  predicate ValidPolicy(p: Policy) {
    p.maxMessageChars > 0 && p.maxMessages <= 1_000
  }

  predicate IsEnabled(p: Policy) {
    p.maxMessages > 0 && p.maxChars > 0 && p.loadTimeout > 0
  }

  // ---- Rendering ----

  function HexDigit(n: nat): char
    requires n < 16
  {
    if n < 10 then ('0' as int + n) as char else ('a' as int + (n - 10)) as char
  }

  /** One character inside a JSON string that keeps non-ASCII text as it is. */
  function EscapeOne(c: char): (s: string)
    ensures s != ""
  {
    if c == '\"' then "\\\""
    else if c == '\\' then "\\\\"
    else if c == '\n' then "\\n"
    else if c == '\r' then "\\r"
    else if c == '\t' then "\\t"
    else if c as int == 8 then "\\b"
    else if c as int == 12 then "\\f"
    else if c as int < 32 then "\\u00" + [HexDigit(c as int / 16), HexDigit(c as int % 16)]
    else [c]
  }

  function Escape(s: string): string {
    if s == "" then "" else EscapeOne(s[0]) + Escape(s[1..])
  }

  function Quote(s: string): string {
    "\"" + Escape(s) + "\""
  }

  function Digits(n: nat): string {
    (if n < 10 then "" else Digits(n / 10)) + [('0' as int + n % 10) as char]
  }

  function Number(n: int): string {
    if n < 0 then "-" + Digits(-n) else Digits(n)
  }

  function RoleName(r: Role): string {
    match r
    case System => "system"
    case User => "user"
    case Assistant => "assistant"
    case Tool => "tool"
  }

  function BeforeContent(m: Message): string {
    "{\"message_id\":" + Quote(m.id) + ",\"sequence\":" + Number(m.sequence) + ",\"generation\":" + Number(m.generation)
    + ",\"role\":" + Quote(RoleName(m.role)) + ",\"content\":"
  }

  function AfterContent(truncated: bool): string {
    ",\"truncated\":" + (if truncated then "true" else "false") + "}"
  }

  function RenderOne(m: Message): string {
    BeforeContent(m) + Quote(m.content) + AfterContent(m.truncated)
  }

  function RenderList(ms: seq<Message>): string {
    if ms == [] then ""
    else RenderOne(ms[0]) + if |ms| == 1 then "" else "," + RenderList(ms[1..])
  }

  const OPENING := "<recent_conversation instruction_authority=\"false\" data_only=\"true\" may_be_incomplete=\"true\">"
  const CLOSING := "</recent_conversation>"

  function Render(ms: seq<Message>): string {
    OPENING + "\n" + "[" + RenderList(ms) + "]" + "\n" + CLOSING
  }

  // ---- Fitting one message ----

  function Shortened(m: Message, k: nat): Message
    requires k <= |m.content|
  {
    m.(content := m.content[..k], truncated := true)
  }

  predicate Fits(p: Policy, m: Message, newer: seq<Message>) {
    |Render([m] + newer)| <= p.maxChars
  }

  predicate PrefixFits(p: Policy, m: Message, newer: seq<Message>, k: nat)
    requires k <= |m.content|
  {
    Fits(p, Shortened(m, k), newer)
  }

  /** The longest non-empty prefix of at most `k` characters that fits, or 0. */
  function Longest(p: Policy, m: Message, newer: seq<Message>, k: nat): (r: nat)
    requires k <= |m.content|
    ensures r <= k
  {
    if k == 0 then 0 else if PrefixFits(p, m, newer, k) then k else Longest(p, m, newer, k - 1)
  }

  /** Whether halving from `h` probes a prefix of length one before it runs into zero. */
  predicate ProbesOne(h: nat) {
    if h <= 1 then false else if h <= 3 then true else ProbesOne(h / 2 - 1)
  }

  /** What is kept of a message: all of it, or the longest prefix that fits. A prefix of a single
      character is only found where the search happens to probe it. */
  function Fitted(p: Policy, m: Message, newer: seq<Message>): Option<Message> {
    if Fits(p, m, newer) then Some(m)
    else
      var k := Longest(p, m, newer, |m.content|);
      if k >= 2 || (k == 1 && ProbesOne(|m.content|)) then Some(Shortened(m, k)) else None
  }

  // ---- Lengths grow with content ----

  lemma {:induction false} EscapeGrows(s: string, j: nat, k: nat)
    requires j <= k <= |s|
    ensures |Escape(s[..j])| <= |Escape(s[..k])|
  {
    hide EscapeOne;
    if j > 0 {
      EscapeGrows(s[1..], j - 1, k - 1);
      assert s[..j][1..] == s[1..][..j - 1] && s[..k][1..] == s[1..][..k - 1];
    }
  }

  lemma RenderLength(m: Message, newer: seq<Message>)
    ensures |Render([m] + newer)| ==
      |Escape(m.content)| + |BeforeContent(m)| + |AfterContent(m.truncated)| + 2
      + (if newer == [] then 0 else 1 + |RenderList(newer)|) + |OPENING| + |CLOSING| + 4
  {
    hide Escape, BeforeContent, AfterContent;
    var all := [m] + newer;
    assert all[0] == m && all[1..] == newer;
  }

  lemma ShorterFits(p: Policy, m: Message, newer: seq<Message>, j: nat, k: nat)
    requires j <= k <= |m.content| && PrefixFits(p, m, newer, k)
    ensures PrefixFits(p, m, newer, j)
  {
    hide Escape, Render, AfterContent, Quote, Number;
    EscapeGrows(m.content, j, k);
    RenderLength(Shortened(m, j), newer);
    RenderLength(Shortened(m, k), newer);
  }

  lemma {:induction false} LongestIs(p: Policy, m: Message, newer: seq<Message>, k: nat)
    requires k <= |m.content|
    ensures var r := Longest(p, m, newer, k);
      && (r > 0 ==> PrefixFits(p, m, newer, r))
      && forall j | r < j <= k :: !PrefixFits(p, m, newer, j)
  {
    hide PrefixFits;
    if k > 0 && !PrefixFits(p, m, newer, k) {
      LongestIs(p, m, newer, k - 1);
    }
  }

  lemma LongestSplits(p: Policy, m: Message, newer: seq<Message>, k: nat)
    requires 0 < k <= |m.content|
    ensures PrefixFits(p, m, newer, k) <==> k <= Longest(p, m, newer, |m.content|)
  {
    hide PrefixFits, Longest;
    LongestIs(p, m, newer, |m.content|);
    var best := Longest(p, m, newer, |m.content|);
    if k <= best {
      ShorterFits(p, m, newer, k, best);
    }
  }

  /** `_fit_message`: binary search over the prefix length. */
  method FitMessage(p: Policy, m: Message, newer: seq<Message>) returns (r: Option<Message>)
    ensures r == Fitted(p, m, newer)
  {
    hide Fits, PrefixFits, Longest;
    if Fits(p, m, newer) {
      return Some(m);
    }
    var n := |m.content|;
    ghost var best := Longest(p, m, newer, n);
    var low, high: int := 0, n;
    r := None;
    while low <= high
      invariant 0 <= low <= best + 1 && -1 <= high <= n
      invariant r == if low == 0 then None else Some(Shortened(m, low - 1))
      invariant low == 0 || low >= 2
      invariant best <= high || (low == 0 && high == -1 && best == 1 && !ProbesOne(n)) || (high == -1 && best == 0)
      invariant best == 1 && low == 0 && high >= 0 ==> ProbesOne(high) == ProbesOne(n)
      invariant best == 1 && low > 0 ==> ProbesOne(n)
      decreases high - low
    {
      var midpoint := (low + high) / 2;
      if midpoint > 0 {
        LongestSplits(p, m, newer, midpoint);
      }
      if midpoint > 0 && PrefixFits(p, m, newer, midpoint) {
        r := Some(Shortened(m, midpoint));
        low := midpoint + 1;
      } else {
        high := midpoint - 1;
      }
    }
  }

  // ---- Which messages ----

  function RecordKey(r: Record): Key {
    Key(r.sequence, 0, r.id)
  }

  predicate Seen(earlier: seq<Record>, sessionId: string, id: string) {
    exists i | 0 <= i < |earlier| :: earlier[i].sessionId == sessionId && earlier[i].id == id
  }

  predicate Qualifies(r: Record, earlier: seq<Record>, sessionId: string, before: int) {
    && r.sessionId == sessionId && !Seen(earlier, sessionId, r.id)
    && (r.role == User || r.role == Assistant)
    && r.generation.Some? && 0 <= r.generation.value < before
    && Strip(r.content) != ""
  }

  function Bounded(p: Policy, r: Record): Message
    requires r.generation.Some?
  {
    var content := Strip(r.content);
    if p.maxMessageChars < |content|
    then Message(r.id, r.sequence, r.generation.value, r.role, content[..p.maxMessageChars], true)
    else Message(r.id, r.sequence, r.generation.value, r.role, content, false)
  }

  /** The messages of a session before a generation, in the order of `records`. */
  function Eligible(p: Policy, records: seq<Record>, sessionId: string, before: int): seq<Message> {
    if records == [] then []
    else
      var n := |records| - 1;
      Eligible(p, records[..n], sessionId, before)
      + if Qualifies(records[n], records[..n], sessionId, before) then [Bounded(p, records[n])] else []
  }

  function Window(p: Policy, ms: seq<Message>): seq<Message> {
    if |ms| <= p.maxMessages then ms else ms[|ms| - p.maxMessages..]
  }

  /** From the newest to the oldest, what fits before what was already taken. */
  function Select(p: Policy, window: seq<Message>): seq<Message> {
    if window == [] then []
    else
      var newer := Select(p, window[1..]);
      match Fitted(p, window[0], newer)
      case None => newer
      case Some(m) => [m] + newer
  }

  function Compiled(p: Policy, records: seq<Record>, sessionId: string, before: int): History {
    if !IsEnabled(p) then History([], "")
    else
      var chosen := Select(p, Window(p, Eligible(p, Sort(RecordKey, records), sessionId, before)));
      if chosen == [] then History([], "") else History(chosen, Render(chosen))
  }

  method Compile(p: Policy, records: seq<Record>, sessionId: string, before: int) returns (h: History)
    ensures h == Compiled(p, records, sessionId, before)
  {
    hide Render, Sort, Fitted, Eligible;
    if !IsEnabled(p) {
      return History([], "");
    }
    var eligible := Collect(p, Sort(RecordKey, records), sessionId, before);
    var window := Window(p, eligible);
    var selected: seq<Message> := [];
    var i := |window|;
    while i > 0
      invariant 0 <= i <= |window| && selected == Select(p, window[i..])
    {
      i := i - 1;
      assert window[i..][1..] == window[i + 1..];
      var fitted := FitMessage(p, window[i], selected);
      if fitted.Some? {
        selected := [fitted.value] + selected;
      }
    }
    assert window[0..] == window;
    if selected == [] {
      return History([], "");
    }
    return History(selected, Render(selected));
  }

  /** The first loop of `compile`. */
  method Collect(p: Policy, records: seq<Record>, sessionId: string, before: int) returns (eligible: seq<Message>)
    ensures eligible == Eligible(p, records, sessionId, before)
  {
    hide Strip;
    eligible := [];
    var seen: set<string> := {};
    var i := 0;
    while i < |records|
      invariant i <= |records|
      invariant eligible == Eligible(p, records[..i], sessionId, before)
      invariant forall id: string :: id in seen <==> Seen(records[..i], sessionId, id)
    {
      var r := records[i];
      assert records[..i + 1][..i] == records[..i] && records[..i + 1][i] == r;
      SeenStep(records[..i], r, sessionId);
      assert records[..i] + [r] == records[..i + 1];
      var known := r.id in seen;
      if r.sessionId == sessionId {
        seen := seen + {r.id};
      }
      if !known && r.sessionId == sessionId && (r.role == User || r.role == Assistant)
        && r.generation.Some? && 0 <= r.generation.value < before && Strip(r.content) != "" {
        eligible := eligible + [Bounded(p, r)];
      }
      i := i + 1;
    }
    assert records[..i] == records;
  }

  lemma SeenStep(earlier: seq<Record>, r: Record, sessionId: string)
    ensures forall id: string :: Seen(earlier + [r], sessionId, id) <==>
      Seen(earlier, sessionId, id) || (r.sessionId == sessionId && r.id == id)
  {
    var all := earlier + [r];
    assert all[|earlier|] == r;
    forall id: string | Seen(earlier, sessionId, id) ensures Seen(all, sessionId, id) {
      var i :| 0 <= i < |earlier| && earlier[i].sessionId == sessionId && earlier[i].id == id;
      assert all[i] == earlier[i];
    }
  }
}
