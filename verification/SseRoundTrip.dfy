/** What an event stream writes is what the decoder reads. */
module SseRoundTrip {
  import opened Text
  import opened Octets
  import opened Utf8
  import opened SseSpec
  import opened SseProofs

  // ---- One line ----

  const PREFIX: seq<byte> := [100, 97, 116, 97, 58, 32]

  lemma FindInConcat(a: seq<byte>, b: byte, rest: seq<byte>)
    requires b !in a
    ensures Find(a + [b] + rest, b) == |a|
    ensures Find(a, b) == |a|
  {
    assert Find(a, b) == |a|;
    FindExtends(a, [b] + rest, b);
    assert a + [b] + rest == a + ([b] + rest);
    assert Find([b] + rest, b) == 0;
  }

  /** A line carries the data `v` exactly if it is "data" alone and `v` is empty, or "data:" and `v`, of which
      a single leading space is not part. */
  lemma DataValueExactly(line: seq<byte>, v: seq<byte>)
    ensures DataValue(line) == Some(v) <==>
      || (line == DATA && v == [])
      || line == DATA + [COLON] + ([SPACE] + v)
      || (line == DATA + [COLON] + v && (v == [] || v[0] != SPACE))
  {
    FindInConcat(DATA, COLON, v);
    FindInConcat(DATA, COLON, [SPACE] + v);
    var k := Find(line, COLON);
    hide Find;
    if line[..k] == DATA && k < |line| {
      assert line == DATA + [COLON] + line[k + 1..];
      if k + 1 < |line| && line[k + 1] == SPACE {
        assert line[k + 1..] == [SPACE] + line[k + 2..];
      }
    }
    if line == DATA + [COLON] + ([SPACE] + v) {
      assert line[..4] == DATA && line[5] == SPACE && line[6..] == v;
    }
    if line == DATA + [COLON] + v {
      assert line[..4] == DATA && line[5..] == v;
    }
    if line[..k] == DATA && k == |line| {
      assert line == DATA;
    }
  }

  // ---- Whole events ----

  function Onward(max: nat, step: Step, rest: seq<byte>): Outcome {
    if step.Fail? then Failed else After(step.events, Drain(max, step.pending, rest))
  }

  /** A line and its end are drained as one line. */
  lemma DrainLine(max: nat, p: Pending, line: seq<byte>, rest: seq<byte>)
    requires LF !in line
    ensures Drain(max, p, line + [LF] + rest) == Onward(max, ConsumeLine(max, p, StripCr(line)), rest)
  {
    hide ConsumeLine, After;
    var buf := line + [LF] + rest;
    FindInConcat(line, LF, rest);
    assert buf[..|line|] == line && buf[|line| + 1..] == rest;
    hide Find;
  }

  /** One event: a data line and a blank line. */
  function WriteEvent(payload: seq<byte>): seq<byte> {
    PREFIX + payload + [LF] + [LF]
  }

  function WriteAll(texts: seq<string>): seq<byte> {
    if texts == [] then [] else WriteEvent(Encode(texts[0])) + WriteAll(texts[1..])
  }

  /** A payload that one line can carry. */
  predicate Plain(max: nat, payload: seq<byte>) {
    LF !in payload && (payload == [] || payload[|payload| - 1] != CR) && |payload| + 6 <= max
  }

  lemma DataLine(max: nat, first: bool, payload: seq<byte>)
    requires Plain(max, payload)
    ensures ConsumeLine(max, Pending([], 0, first), StripCr(PREFIX + payload)) == Go(Pending([payload], |payload|, false), [])
  {
    var line := PREFIX + payload;
    assert line[|line| - 1] != CR;
    assert line[..3][0] == 100;
    assert StripBom(line) == line;
    DataValueExactly(line, payload);
    assert line == DATA + [COLON] + ([SPACE] + payload);
    hide DataValue;
  }

  lemma BlankLine(max: nat, text: string, payload: seq<byte>)
    requires payload == Encode(text)
    ensures ConsumeLine(max, Pending([payload], |payload|, false), StripCr([])) == Go(Pending([], 0, false), [text])
  {
    hide Encode, Decode;
    DecodeEncoded(text);
  }

  lemma EventDrains(max: nat, first: bool, text: string, rest: seq<byte>)
    requires Plain(max, Encode(text))
    ensures Drain(max, Pending([], 0, first), WriteEvent(Encode(text)) + rest) == After([text], Drain(max, Pending([], 0, false), rest))
  {
    hide Drain, Encode, ConsumeLine, StripCr;
    var payload := Encode(text);
    var line := PREFIX + payload;
    var blank: seq<byte> := [];
    assert WriteEvent(payload) + rest == line + [LF] + (blank + [LF] + rest);
    DrainLine(max, Pending([], 0, first), line, blank + [LF] + rest);
    DataLine(max, first, payload);
    DrainLine(max, Pending([payload], |payload|, false), blank, rest);
    BlankLine(max, text, payload);
    AfterNothing(Drain(max, Pending([payload], |payload|, false), blank + [LF] + rest));
  }

  lemma {:induction false} AllDrain(max: nat, first: bool, texts: seq<string>)
    requires forall i | 0 <= i < |texts| :: Plain(max, Encode(texts[i]))
    ensures Drain(max, Pending([], 0, first), WriteAll(texts)) == Done(Pending([], 0, first && texts == []), [], texts)
    decreases |texts|
  {
    hide Encode, Plain, WriteEvent;
    if texts == [] {
      DrainNothing(max, Pending([], 0, first), []);
    } else {
      EventDrains(max, first, texts[0], WriteAll(texts[1..]));
      AllDrain(max, false, texts[1..]);
      assert texts == [texts[0]] + texts[1..];
    }
  }

  /** Texts of one line each, written as events, decode to the same texts, however the stream was cut, as long
      as no chunk ends in an unfinished line over the limit. */
  lemma WrittenIsRead(max: nat, texts: seq<string>, chunks: seq<seq<byte>>)
    requires forall i | 0 <= i < |texts| :: Plain(max, Encode(texts[i]))
    requires Concat(chunks) == WriteAll(texts) && Fitting(max, [], chunks)
    ensures DecodeStream(max, chunks) == Some(texts)
  {
    hide Drain, Encode, Plain, WriteAll, Concat, Fitting, FeedAll, Find;
    FeedAllIsDrain(max, START, [], [], chunks);
    assert [] + Concat(chunks) == Concat(chunks);
    AllDrain(max, true, texts);
    assert texts + [] == texts;
  }

  // ---- The byte order mark ----

  lemma {:induction false} NoLineEnd(body: seq<byte>)
    ensures Find(BOM + body, LF) == 3 + Find(body, LF)
  {
    assert LF !in BOM;
    assert Find(BOM, LF) == |BOM|;
    FindExtends(BOM, body, LF);
  }

  /** A byte order mark before the first line is as if it were not there. */
  lemma BomIsDropped(body: seq<byte>)
    requires body != []
    ensures WithoutBom(Lines(BOM + body)) == Lines(body)
  {
    var all := BOM + body;
    NoLineEnd(body);
    var k := Find(body, LF);
    hide Find;
    if k < |body| {
      assert all[..3 + k] == BOM + body[..k] && all[3 + k + 1..] == body[k + 1..];
      BomOfLine(body[..k]);
    } else {
      BomOfLine(body);
    }
  }

  lemma BomOfLine(line: seq<byte>)
    ensures StripBom(StripCr(BOM + line)) == StripCr(line)
  {
    var all := BOM + line;
    if line != [] {
      assert all[|all| - 1] == line[|line| - 1];
      assert all[..|all| - 1] == BOM + line[..|line| - 1];
    }
    assert StripCr(all) == BOM + StripCr(line);
    assert (BOM + StripCr(line))[..3] == BOM && (BOM + StripCr(line))[3..] == StripCr(line);
  }
}
