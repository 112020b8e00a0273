/** Chunking is invisible, payloads are bounded, and the events are those of the blocks of the body. */
module SseProofs {
  import opened Text
  import opened Octets
  import opened Utf8
  import opened SseSpec

  // ---- Chunking ----

  lemma {:induction false} FindExtends(bs: seq<byte>, more: seq<byte>, b: byte)
    ensures Find(bs, b) < |bs| ==> Find(bs + more, b) == Find(bs, b)
    ensures Find(bs, b) == |bs| ==> Find(bs + more, b) == |bs| + Find(more, b)
  {
    if bs == [] {
      assert bs + more == more;
    } else {
      assert (bs + more)[1..] == bs[1..] + more;
      FindExtends(bs[1..], more, b);
    }
  }

  lemma SplitsExtend(bs: seq<byte>, more: seq<byte>, k: nat)
    requires k < |bs|
    ensures (bs + more)[..k] == bs[..k] && (bs + more)[k + 1..] == bs[k + 1..] + more
  {
  }

  lemma AfterAfter(a: seq<string>, b: seq<string>, o: Outcome)
    ensures After(a, After(b, o)) == After(a + b, o)
  {
    if o.Done? {
      assert a + (b + o.events) == (a + b) + o.events;
    }
  }

  lemma AfterNothing(o: Outcome)
    ensures After([], o) == o
  {
    if o.Done? {
      assert [] + o.events == o.events;
    }
  }

  /** Draining a longer buffer is draining its beginning, then going on with what was left of it. */
  lemma {:induction false} DrainSplit(max: nat, p: Pending, buf: seq<byte>, more: seq<byte>)
    ensures Drain(max, p, buf + more) ==
      match Drain(max, p, buf)
      case Failed => Failed
      case Done(p1, rest, events) => After(events, Drain(max, p1, rest + more))
    decreases |buf|
  {
    hide ConsumeLine, Find, After;
    var k := Find(buf, LF);
    FindExtends(buf, more, LF);
    if k == |buf| {
      AfterNothing(Drain(max, p, buf + more));
    } else {
      SplitsExtend(buf, more, k);
      match ConsumeLine(max, p, StripCr(buf[..k]))
      case Fail =>
      case Go(p1, events) =>
        DrainSplit(max, p1, buf[k + 1..], more);
        DrainSplitStep(max, p1, buf[k + 1..], more, events);
    }
  }

  lemma DrainSplitStep(max: nat, p: Pending, buf: seq<byte>, more: seq<byte>, events: seq<string>)
    requires Drain(max, p, buf + more) ==
      match Drain(max, p, buf)
      case Failed => Failed
      case Done(p1, rest, inner) => After(inner, Drain(max, p1, rest + more))
    ensures After(events, Drain(max, p, buf + more)) ==
      match After(events, Drain(max, p, buf))
      case Failed => Failed
      case Done(p1, rest, inner) => After(inner, Drain(max, p1, rest + more))
  {
    hide Drain;
    match Drain(max, p, buf)
    case Failed =>
    case Done(p1, rest, inner) => AfterAfter(events, inner, Drain(max, p1, rest + more));
  }

  /** The unfinished line at the end of a buffer. */
  function Unfinished(buf: seq<byte>): (r: seq<byte>)
    ensures LF !in r
    decreases |buf|
  {
    var k := Find(buf, LF);
    if k == |buf| then (assert buf[..k] == buf; buf) else Unfinished(buf[k + 1..])
  }

  lemma {:induction false} DrainLeaves(max: nat, p: Pending, buf: seq<byte>)
    requires Drain(max, p, buf).Done?
    ensures Drain(max, p, buf).rest == Unfinished(buf)
    decreases |buf|
  {
    hide ConsumeLine, Find;
    var k := Find(buf, LF);
    if k < |buf| {
      DrainLeaves(max, ConsumeLine(max, p, StripCr(buf[..k])).pending, buf[k + 1..]);
    }
  }

  lemma {:induction false} UnfinishedSplit(a: seq<byte>, b: seq<byte>)
    ensures Unfinished(a + b) == Unfinished(Unfinished(a) + b)
    decreases |a|
  {
    hide Find;
    var k := Find(a, LF);
    FindExtends(a, b, LF);
    if k < |a| {
      SplitsExtend(a, b, k);
      UnfinishedSplit(a[k + 1..], b);
    }
  }

  /** After every chunk the line that has not ended yet is within the limit. */
  predicate Fitting(max: nat, seen: seq<byte>, chunks: seq<seq<byte>>)
    decreases |chunks|
  {
    chunks == [] || (|Unfinished(seen + chunks[0])| <= max && Fitting(max, seen + chunks[0], chunks[1..]))
  }

  /** Feeding chunk by chunk is draining everything at once, except that it also fails if some chunk ends
      in an unfinished line that is too long. */
  lemma {:induction false} FeedAllIsDrain(max: nat, p: Pending, buf: seq<byte>, seen: seq<byte>, chunks: seq<seq<byte>>)
    requires buf == Unfinished(seen)
    ensures LF !in buf
    ensures FeedAll(max, p, buf, chunks) ==
      if Fitting(max, seen, chunks) then Drain(max, p, buf + Concat(chunks)) else Failed
    decreases |chunks|
  {
    hide Drain, Unfinished;
    if chunks == [] {
      assert buf + Concat(chunks) == buf;
      DrainNothing(max, p, buf);
    } else {
      var c, rest := chunks[0], Concat(chunks[1..]);
      assert buf + Concat(chunks) == (buf + c) + rest;
      DrainSplit(max, p, buf + c, rest);
      UnfinishedSplit(seen, c);
      match Drain(max, p, buf + c)
      case Failed =>
      case Done(p1, left, events) =>
        DrainLeaves(max, p, buf + c);
        FeedAllIsDrain(max, p1, left, seen + c, chunks[1..]);
    }
  }

  lemma DrainNothing(max: nat, p: Pending, buf: seq<byte>)
    requires LF !in buf
    ensures Drain(max, p, buf) == Done(p, buf, [])
  {
    var k := Find(buf, LF);
    assert k == |buf|;
  }

  lemma ConcatOne(body: seq<byte>)
    ensures Concat([body]) == body
  {
    assert Concat([body]) == body + Concat([]);
  }

  /** A chunking decodes exactly when the whole body decodes and no chunk ends in an unfinished line over
      the limit; then it gives the same events. */
  lemma ChunkingExactly(max: nat, chunks: seq<seq<byte>>)
    ensures DecodeStream(max, chunks) ==
      if Fitting(max, [], chunks) then DecodeStream(max, [Concat(chunks)]) else None
  {
    hide Drain, Finish, FeedAll, Find;
    var body := Concat(chunks);
    assert Unfinished([]) == [];
    FeedAllIsDrain(max, START, [], [], chunks);
    FeedAllIsDrain(max, START, [], [], [body]);
    ConcatOne(body);
    assert [] + body == body;
    if Fitting(max, [], chunks) {
      LastFits(max, [], chunks);
      FittingOne(max, body);
    }
  }

  lemma FittingOne(max: nat, body: seq<byte>)
    ensures Fitting(max, [], [body]) <==> |Unfinished(body)| <= max
  {
    hide Unfinished;
    assert [] + body == body;
    assert [body][1..] == [];
  }

  lemma {:induction false} LastFits(max: nat, seen: seq<byte>, chunks: seq<seq<byte>>)
    requires Fitting(max, seen, chunks) && |Unfinished(seen)| <= max
    ensures |Unfinished(seen + Concat(chunks))| <= max
    decreases |chunks|
  {
    hide Unfinished;
    if chunks == [] {
      assert seen + Concat(chunks) == seen;
    } else {
      LastFits(max, seen + chunks[0], chunks[1..]);
      assert seen + Concat(chunks) == (seen + chunks[0]) + Concat(chunks[1..]);
    }
  }

  /** Any two chunkings of one body that both decode give the same events. */
  lemma ChunkingsAgree(max: nat, a: seq<seq<byte>>, b: seq<seq<byte>>)
    requires Concat(a) == Concat(b) && DecodeStream(max, a).Some? && DecodeStream(max, b).Some?
    ensures DecodeStream(max, a) == DecodeStream(max, b)
  {
    hide DecodeStream, Fitting;
    ChunkingExactly(max, a);
    ChunkingExactly(max, b);
  }

  /** Success does depend on chunking: a carriage return at the end of a chunk still counts as text. */
  lemma SuccessDependsOnChunking()
    ensures var cr, lf := [[58, 13]], [[10]];
      DecodeStream(1, cr + lf).None? && DecodeStream(1, [Concat(cr + lf)]) == Some([])
  {
    hide Drain;
    var chunks: seq<seq<byte>> := [[58, 13]] + [[10]];
    assert Concat(chunks) == [58, 13, 10] by {
      assert chunks[1..] == [[10]];
      ConcatOne([10]);
    }
    SmallBodies();
    ChunkingExactly(1, chunks);
    assert [] + chunks[0] == [58, 13];
  }

  lemma SmallBodies()
    ensures Unfinished([58, 13]) == [58, 13]
    ensures DecodeStream(1, [[58, 13, 10]]) == Some([])
  {
    var body: seq<byte> := [58, 13, 10];
    assert Find([58, 13], LF) == 2 by { assert [58, 13][1..] == [13]; }
    assert Find(body, LF) == 2 by { assert body[1..] == [13, 10]; assert [13, 10][1..] == [10]; }
    assert Drain(1, START, body) == Done(Pending([], 0, false), [], []) by {
      assert body[..2] == [58, 13] && body[3..] == [];
      assert StripCr([58, 13]) == [58];
      assert Find([58], COLON) == 0;
      DrainNothing(1, Pending([], 0, false), []);
    }
    assert [] + body == body;
  }

  // ---- Bounds ----

  /** The running size is the size of the payload to come, and within the limit. */
  predicate Counted(max: nat, p: Pending) {
    p.bytes == |JoinLines(p.data)| <= max
  }

  predicate AllWithin(max: nat, events: seq<string>) {
    forall i | 0 <= i < |events| :: |Encode(events[i])| <= max
  }

  lemma JoinAppend(data: seq<seq<byte>>, value: seq<byte>)
    ensures JoinLines(data + [value]) == if data == [] then value else JoinLines(data) + [LF] + value
  {
    var all := data + [value];
    assert all[..|data|] == data && all[|data|] == value;
  }

  lemma DispatchBounded(max: nat, p: Pending)
    requires Counted(max, p) && Dispatch(p).Go?
    ensures Counted(max, Dispatch(p).pending) && AllWithin(max, Dispatch(p).events)
  {
    hide Decode, Encode;
    if p.data != [] {
      EncodeDecoded(JoinLines(p.data));
    }
  }

  lemma ConsumeBounded(max: nat, p: Pending, raw: seq<byte>)
    requires Counted(max, p) && ConsumeLine(max, p, raw).Go?
    ensures Counted(max, ConsumeLine(max, p, raw).pending) && AllWithin(max, ConsumeLine(max, p, raw).events)
  {
    hide JoinLines, Encode, Dispatch, DataValue, StripBom;
    var line := if p.first then StripBom(raw) else raw;
    if line == [] {
      DispatchBounded(max, p.(first := false));
    } else {
      match DataValue(line)
      case None =>
      case Some(value) =>
        JoinAppend(p.data, value);
        assert p.data == [] ==> JoinLines(p.data) == [] by { NothingJoined(); }
    }
  }

  lemma NothingJoined()
    ensures JoinLines([]) == []
  {
  }

  lemma {:induction false} DrainBounded(max: nat, p: Pending, buf: seq<byte>)
    requires Counted(max, p) && Drain(max, p, buf).Done?
    ensures Counted(max, Drain(max, p, buf).pending) && AllWithin(max, Drain(max, p, buf).events)
    decreases |buf|
  {
    hide Counted, ConsumeLine, Encode, Find;
    var k := Find(buf, LF);
    if k < |buf| {
      ConsumeBounded(max, p, StripCr(buf[..k]));
      DrainBounded(max, ConsumeLine(max, p, StripCr(buf[..k])).pending, buf[k + 1..]);
    }
  }

  lemma FinishBounded(max: nat, p: Pending, buf: seq<byte>)
    requires Counted(max, p) && Finish(max, p, buf).Go?
    ensures AllWithin(max, Finish(max, p, buf).events)
  {
    hide Counted, ConsumeLine, Dispatch, Encode;
    if buf == [] {
      DispatchBounded(max, p);
    } else {
      ConsumeBounded(max, p, StripCr(buf));
      DispatchBounded(max, ConsumeLine(max, p, StripCr(buf)).pending);
    }
  }

  /** No event is larger than the limit, however the body was cut. */
  lemma EventsAreBounded(max: nat, chunks: seq<seq<byte>>)
    requires DecodeStream(max, chunks).Some?
    ensures AllWithin(max, DecodeStream(max, chunks).value)
  {
    hide Drain, Finish, FeedAll, Encode, Concat, Fitting, Find;
    FeedAllIsDrain(max, START, [], [], chunks);
    assert [] + Concat(chunks) == Concat(chunks);
    NothingJoined();
    var o := FeedAll(max, START, [], chunks);
    DrainBounded(max, START, Concat(chunks));
    FinishBounded(max, o.pending, o.rest);
  }

  // ---- Meaning ----

  /** Consume complete lines, then dispatch. */
  function ConsumeAll(max: nat, p: Pending, lines: seq<seq<byte>>): Step
    decreases |lines|
  {
    if lines == [] then Dispatch(p)
    else
      match ConsumeLine(max, p, lines[0])
      case Fail => Fail
      case Go(p1, events) =>
        match ConsumeAll(max, p1, lines[1..])
        case Fail => Fail
        case Go(p2, more) => Go(p2, events + more)
  }

  /** Drain, then finish, as one step. */
  function Whole(max: nat, o: Outcome): Step {
    match o
    case Failed => Fail
    case Done(p, rest, events) => Following(events, Finish(max, p, rest))
  }

  function Following(events: seq<string>, step: Step): Step {
    match step
    case Fail => Fail
    case Go(p, more) => Go(p, events + more)
  }

  /** Draining a body and finishing consumes exactly its lines, and fails exactly when they do. */
  lemma {:induction false} DrainConsumesLines(max: nat, p: Pending, body: seq<byte>)
    ensures ConsumeAll(max, p, Lines(body)) == Whole(max, Drain(max, p, body))
    decreases |body|
  {
    hide ConsumeLine, Dispatch, Find, Finish, StripCr;
    var k := Find(body, LF);
    if k < |body| {
      assert Lines(body)[1..] == Lines(body[k + 1..]);
      match ConsumeLine(max, p, StripCr(body[..k]))
      case Fail =>
      case Go(p1, events) =>
        DrainConsumesLines(max, p1, body[k + 1..]);
        WholeAfter(max, events, Drain(max, p1, body[k + 1..]));
    } else {
      LastLine(max, p, body);
    }
  }

  lemma WholeAfter(max: nat, events: seq<string>, o: Outcome)
    ensures Whole(max, After(events, o)) == Following(events, Whole(max, o))
  {
    hide Finish;
    if o.Done? {
      var f := Finish(max, o.pending, o.rest);
      if f.Go? {
        assert (events + o.events) + f.events == events + (o.events + f.events);
      }
    }
  }

  lemma LastLine(max: nat, p: Pending, body: seq<byte>)
    requires Find(body, LF) == |body|
    ensures ConsumeAll(max, p, Lines(body)) == Following([], Finish(max, p, body))
  {
    hide ConsumeLine, Dispatch, Find, StripCr;
    var f := Finish(max, p, body);
    if f.Go? {
      assert [] + f.events == f.events;
    }
    if body != [] {
      assert Lines(body) == [StripCr(body)] && Lines(body)[1..] == [];
    }
  }

  /** The payloads to come, given what has been collected. */
  function PayloadsAfter(data: seq<seq<byte>>, lines: seq<seq<byte>>): seq<seq<byte>> {
    var blocks := Blocks(lines);
    Payload(data + Values(blocks[0])) + Payloads(blocks[1..])
  }

  lemma EncodeAllAppend(a: seq<string>, b: seq<string>)
    requires |a| <= 1
    ensures EncodeAll(a + b) == EncodeAll(a) + EncodeAll(b)
  {
    hide Encode;
    if a == [] {
      assert a + b == b;
    } else {
      assert (a + b)[1..] == b;
      assert a[1..] == [];
    }
  }

  lemma DispatchMeans(p: Pending)
    requires Dispatch(p).Go?
    ensures EncodeAll(Dispatch(p).events) == Payload(p.data)
    ensures Dispatch(p).pending.data == [] && Dispatch(p).pending.first == p.first && |Dispatch(p).events| <= 1
  {
    hide Decode, Encode, JoinLines;
    if p.data != [] {
      EncodeDecoded(JoinLines(p.data));
      var e := Dispatch(p).events;
      assert e[1..] == [];
    }
  }

  lemma {:induction false} ConsumeAllMeans(max: nat, p: Pending, lines: seq<seq<byte>>)
    requires !p.first && ConsumeAll(max, p, lines).Go?
    ensures EncodeAll(ConsumeAll(max, p, lines).events) == PayloadsAfter(p.data, lines)
    decreases |lines|
  {
    hide Dispatch, DataValue, Encode, JoinLines, EncodeAll, Payload;
    if lines == [] {
      DispatchMeans(p);
      assert p.data + [] == p.data;
      var nothing: seq<seq<byte>> := [];
      assert Payload(p.data) + nothing == Payload(p.data);
    } else {
      var step := ConsumeLine(max, p, lines[0]);
      assert p.(first := false) == p;
      if lines[0] == [] {
        DispatchMeans(p);
      }
      ConsumeAllMeans(max, step.pending, lines[1..]);
      var more := ConsumeAll(max, step.pending, lines[1..]).events;
      if lines[0] == [] {
        EncodeAllAppend(step.events, more);
        BlankLine(p.data, lines);
      } else {
        assert step.events + more == more;
        TextLine(p.data, lines);
      }
    }
  }

  lemma BlankLine(data: seq<seq<byte>>, lines: seq<seq<byte>>)
    requires lines != [] && lines[0] == []
    ensures PayloadsAfter(data, lines) == Payload(data) + PayloadsAfter([], lines[1..])
  {
    hide Values, Payload;
    var blocks, rest := Blocks(lines), Blocks(lines[1..]);
    assert blocks[0] == [] && blocks[1..] == rest;
    NoValues();
    assert data + [] == data;
    assert [] + Values(rest[0]) == Values(rest[0]);
  }

  lemma NoValues()
    ensures Values([]) == []
  {
  }

  lemma TextLine(data: seq<seq<byte>>, lines: seq<seq<byte>>)
    requires lines != [] && lines[0] != []
    ensures PayloadsAfter(data, lines) ==
      PayloadsAfter(if DataValue(lines[0]).Some? then data + [DataValue(lines[0]).value] else data, lines[1..])
  {
    hide DataValue, Payload, Payloads;
    var blocks, rest := Blocks(lines), Blocks(lines[1..]);
    assert blocks[0] == [lines[0]] + rest[0] && blocks[1..] == rest[1..];
    assert blocks[0][1..] == rest[0] && blocks[0][0] == lines[0];
    if DataValue(lines[0]).Some? {
      var v := DataValue(lines[0]).value;
      assert Values(blocks[0]) == [v] + Values(rest[0]);
      assert data + ([v] + Values(rest[0])) == (data + [v]) + Values(rest[0]);
    }
  }

  /** Whatever decodes, however it was cut, decodes to the data of the blocks of the body: for every block
      of lines between blank lines that has data fields, their values joined by line feeds. */
  lemma EventsAreBlocks(max: nat, chunks: seq<seq<byte>>)
    requires DecodeStream(max, chunks).Some?
    ensures EncodeAll(DecodeStream(max, chunks).value) == Payloads(Blocks(WithoutBom(Lines(Concat(chunks)))))
  {
    hide Drain, Finish, FeedAll, Encode, EncodeAll, Concat, Fitting, Find, Lines, ConsumeAll, Payloads, Blocks;
    var body := Concat(chunks);
    FeedAllIsDrain(max, START, [], [], chunks);
    assert [] + body == body;
    DrainConsumesLines(max, START, body);
    FirstLine(max, Lines(body));
  }

  lemma FirstLine(max: nat, lines: seq<seq<byte>>)
    requires ConsumeAll(max, START, lines).Go?
    ensures EncodeAll(ConsumeAll(max, START, lines).events) == Payloads(Blocks(WithoutBom(lines)))
  {
    hide Dispatch, DataValue, Encode, EncodeAll, StripBom, Values, JoinLines;
    var plain := WithoutBom(lines);
    var blocks := Blocks(plain);
    assert [] + Values(blocks[0]) == Values(blocks[0]);
    if lines == [] {
      DispatchMeans(START);
      NoValues();
      assert blocks == [[]] && blocks[1..] == [];
    } else {
      var p := START.(first := false);
      assert plain[1..] == lines[1..];
      assert ConsumeAll(max, START, lines) == ConsumeAll(max, p, plain);
      ConsumeAllMeans(max, p, plain);
    }
  }

  // ---- When a body decodes ----

  predicate LinesFit(max: nat, lines: seq<seq<byte>>) {
    forall i | 0 <= i < |lines| :: |lines[i]| <= max
  }

  predicate PayloadOk(max: nat, payload: seq<byte>) {
    |payload| <= max && Decode(payload).Some?
  }

  predicate PayloadsOk(max: nat, payloads: seq<seq<byte>>) {
    forall i | 0 <= i < |payloads| :: PayloadOk(max, payloads[i])
  }

  lemma PayloadsSplit(max: nat, a: seq<seq<byte>>, b: seq<seq<byte>>)
    ensures PayloadsOk(max, a + b) <==> PayloadsOk(max, a) && PayloadsOk(max, b)
  {
    hide PayloadOk;
    var all := a + b;
    assert forall i | 0 <= i < |a| :: all[i] == a[i];
    assert forall i | 0 <= i < |b| :: all[|a| + i] == b[i];
  }

  lemma LinesFitSplit(max: nat, lines: seq<seq<byte>>)
    requires lines != []
    ensures LinesFit(max, lines) <==> |lines[0]| <= max && LinesFit(max, lines[1..])
  {
    if |lines[0]| <= max && LinesFit(max, lines[1..]) {
      forall i | 0 <= i < |lines| ensures |lines[i]| <= max {
        assert i > 0 ==> lines[i] == lines[1..][i - 1];
      }
    }
  }

  lemma {:induction false} JoinGrows(a: seq<seq<byte>>, b: seq<seq<byte>>)
    ensures |JoinLines(a)| <= |JoinLines(a + b)|
    decreases |b|
  {
    hide JoinLines;
    if b == [] {
      assert a + b == a;
    } else {
      var n := |b| - 1;
      JoinGrows(a, b[..n]);
      assert a + b == (a + b[..n]) + [b[n]];
      JoinAppend(a + b[..n], b[n]);
      if a + b[..n] == [] {
        NothingJoined();
      }
    }
  }

  lemma DispatchSucceeds(max: nat, p: Pending)
    requires Counted(max, p)
    ensures Dispatch(p).Go? <==> PayloadsOk(max, Payload(p.data))
  {
    hide Decode, JoinLines;
    if p.data != [] {
      assert Payload(p.data)[0] == JoinLines(p.data);
    }
  }

  /** Too much data in a block: its payload, whatever else it holds, exceeds the limit. */
  lemma TooMuch(max: nat, data: seq<seq<byte>>, lines: seq<seq<byte>>)
    requires data != [] && |JoinLines(data)| > max
    ensures !PayloadsOk(max, PayloadsAfter(data, lines))
  {
    hide JoinLines, Decode, Values, Blocks;
    var all := data + Values(Blocks(lines)[0]);
    JoinGrows(data, Values(Blocks(lines)[0]));
    PayloadsSplit(max, Payload(all), Payloads(Blocks(lines)[1..]));
    assert Payload(all)[0] == JoinLines(all);
  }

  lemma {:induction false} ConsumeAllSucceeds(max: nat, p: Pending, lines: seq<seq<byte>>)
    requires !p.first && Counted(max, p)
    ensures ConsumeAll(max, p, lines).Go? <==> LinesFit(max, lines) && PayloadsOk(max, PayloadsAfter(p.data, lines))
    decreases |lines|
  {
    hide Dispatch, DataValue, Decode, JoinLines, LinesFit, PayloadsOk, Counted, PayloadsAfter;
    if lines == [] {
      DispatchSucceeds(max, p);
      NoMorePayloads(p.data);
      LinesFitNothing(max);
    } else {
      assert p.(first := false) == p;
      LinesFitSplit(max, lines);
      if |lines[0]| > max {
      } else if lines[0] == [] {
        BlankSucceeds(max, p, lines);
      } else {
        TextSucceeds(max, p, lines);
      }
    }
  }

  lemma NoMorePayloads(data: seq<seq<byte>>)
    ensures PayloadsAfter(data, []) == Payload(data)
  {
    hide JoinLines;
    assert data + [] == data;
    NoValues();
    var nothing: seq<seq<byte>> := [];
    assert Payload(data) + nothing == Payload(data);
  }

  lemma LinesFitNothing(max: nat)
    ensures LinesFit(max, [])
  {
  }

  lemma BlankSucceeds(max: nat, p: Pending, lines: seq<seq<byte>>)
    requires !p.first && Counted(max, p) && lines != [] && lines[0] == []
    ensures ConsumeAll(max, p, lines).Go? <==> LinesFit(max, lines[1..]) && PayloadsOk(max, PayloadsAfter(p.data, lines))
    decreases |lines|, 0
  {
    hide Dispatch, DataValue, Decode, JoinLines, LinesFit, PayloadsOk, Counted, PayloadsAfter;
    assert p.(first := false) == p;
    BlankLine(p.data, lines);
    DispatchSucceeds(max, p);
    PayloadsSplit(max, Payload(p.data), PayloadsAfter([], lines[1..]));
    if Dispatch(p).Go? {
      DispatchMeans(p);
      DispatchBounded(max, p);
      ConsumeAllSucceeds(max, Dispatch(p).pending, lines[1..]);
    }
  }

  lemma TextSucceeds(max: nat, p: Pending, lines: seq<seq<byte>>)
    requires !p.first && Counted(max, p) && lines != [] && lines[0] != [] && |lines[0]| <= max
    ensures ConsumeAll(max, p, lines).Go? <==> LinesFit(max, lines[1..]) && PayloadsOk(max, PayloadsAfter(p.data, lines))
    decreases |lines|, 0
  {
    hide Dispatch, DataValue, Decode, JoinLines, LinesFit, PayloadsOk, PayloadsAfter;
    assert p.(first := false) == p;
    TextLine(p.data, lines);
    match DataValue(lines[0])
    case None => ConsumeAllSucceeds(max, p, lines[1..]);
    case Some(value) =>
      JoinAppend(p.data, value);
      NothingJoined();
      var step := Collect(max, p, value);
      if step.Go? {
        ConsumeAllSucceeds(max, step.pending, lines[1..]);
      } else {
        TooMuch(max, p.data + [value], lines[1..]);
      }
  }

  lemma FirstLineSucceeds(max: nat, lines: seq<seq<byte>>)
    ensures ConsumeAll(max, START, lines).Go? <==>
      LinesFit(max, WithoutBom(lines)) && PayloadsOk(max, Payloads(Blocks(WithoutBom(lines))))
  {
    hide Dispatch, DataValue, Decode, StripBom, Values, JoinLines, LinesFit, PayloadsOk;
    var plain := WithoutBom(lines);
    var blocks := Blocks(plain);
    assert [] + Values(blocks[0]) == Values(blocks[0]);
    assert blocks == [blocks[0]] + blocks[1..];
    NothingJoined();
    var p := START.(first := false);
    ConsumeAllSucceeds(max, p, plain);
    if lines == [] {
      assert Dispatch(START).Go? && Dispatch(p).Go? by { EmptyDispatches(); }
    } else {
      assert plain[1..] == lines[1..];
      assert ConsumeAll(max, START, lines) == ConsumeAll(max, p, plain);
    }
  }

  lemma EmptyDispatches()
    ensures Dispatch(START).Go? && Dispatch(START.(first := false)).Go?
  {
  }

  /** A body decodes, in these chunks, exactly when every line and every payload is within the limit, every
      payload is valid UTF-8, and no chunk ends in an unfinished line over the limit. */
  lemma DecodesExactly(max: nat, chunks: seq<seq<byte>>)
    ensures var lines := WithoutBom(Lines(Concat(chunks)));
      DecodeStream(max, chunks).Some? <==>
        Fitting(max, [], chunks) && LinesFit(max, lines) && PayloadsOk(max, Payloads(Blocks(lines)))
  {
    hide Drain, Finish, FeedAll, Concat, Fitting, Find, Lines, ConsumeAll, Payloads, Blocks, LinesFit, PayloadsOk, WithoutBom;
    var body := Concat(chunks);
    FeedAllIsDrain(max, START, [], [], chunks);
    assert [] + body == body;
    DrainConsumesLines(max, START, body);
    FirstLineSucceeds(max, Lines(body));
  }
}
