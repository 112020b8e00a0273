/** The server-sent event decoder as functions: lines are cut from the buffer as soon as they end, data
    lines are collected, and a blank line or the end of input dispatches what was collected. */
module SseSpec {
  import opened Text
  import opened Octets
  import opened Utf8

  const LF: byte := 10
  const CR: byte := 13
  const SPACE: byte := 32
  const COLON: byte := 58
  const DATA: seq<byte> := [100, 97, 116, 97]
  const BOM: seq<byte> := [0xEF, 0xBB, 0xBF]

  /** Where `b` first occurs, or the length. */
  function Find(bs: seq<byte>, b: byte): (k: nat)
    ensures k <= |bs| && b !in bs[..k] && (k < |bs| ==> bs[k] == b)
  {
    if bs == [] || bs[0] == b then 0 else 1 + Find(bs[1..], b)
  }

  predicate StartsWith(bs: seq<byte>, prefix: seq<byte>) {
    |prefix| <= |bs| && bs[..|prefix|] == prefix
  }

  function StripCr(line: seq<byte>): seq<byte> {
    if line != [] && line[|line| - 1] == CR then line[..|line| - 1] else line
  }

  function StripBom(line: seq<byte>): seq<byte> {
    if StartsWith(line, BOM) then line[3..] else line
  }

  /** The value of a `data` field; `None` for a comment and for any other field. */
  function DataValue(line: seq<byte>): Option<seq<byte>> {
    var k := Find(line, COLON);
    if line[..k] != DATA then None
    else if k == |line| then Some([])
    else if k + 1 < |line| && line[k + 1] == SPACE then Some(line[k + 2..])
    else Some(line[k + 1..])
  }

  function JoinLines(lines: seq<seq<byte>>): seq<byte> {
    if lines == [] then []
    else if |lines| == 1 then lines[0]
    else JoinLines(lines[..|lines| - 1]) + [LF] + lines[|lines| - 1]
  }

  /** What has been collected for the next event. */
  datatype Pending = Pending(data: seq<seq<byte>>, bytes: nat, first: bool)

  datatype Step = Fail | Go(pending: Pending, events: seq<string>)

  function Dispatch(p: Pending): Step {
    if p.data == [] then Go(p, [])
    else
      match Decode(JoinLines(p.data))
      case None => Fail
      case Some(text) => Go(Pending([], 0, p.first), [text])
  }

  function Collect(max: nat, p: Pending, value: seq<byte>): Step {
    var added := |value| + (if p.data == [] then 0 else 1);
    if p.bytes + added > max then Fail else Go(Pending(p.data + [value], p.bytes + added, p.first), [])
  }

  function ConsumeLine(max: nat, p: Pending, raw: seq<byte>): Step {
    var line := if p.first then StripBom(raw) else raw;
    var p1 := p.(first := false);
    if |line| > max then Fail
    else if line == [] then Dispatch(p1)
    else
      match DataValue(line)
      case None => Go(p1, [])
      case Some(value) => Collect(max, p1, value)
  }

  datatype Outcome = Failed | Done(pending: Pending, rest: seq<byte>, events: seq<string>)

  function After(events: seq<string>, o: Outcome): Outcome {
    match o
    case Failed => Failed
    case Done(p, rest, more) => Done(p, rest, events + more)
  }

  /** The loop of `feed`: consume every line that has ended. */
  function Drain(max: nat, p: Pending, buf: seq<byte>): Outcome
    decreases |buf|
  {
    var k := Find(buf, LF);
    if k == |buf| then Done(p, buf, [])
    else
      match ConsumeLine(max, p, StripCr(buf[..k]))
      case Fail => Failed
      case Go(p1, events) => After(events, Drain(max, p1, buf[k + 1..]))
  }

  function Feed(max: nat, p: Pending, buf: seq<byte>, chunk: seq<byte>): Outcome {
    match Drain(max, p, buf + chunk)
    case Failed => Failed
    case Done(p1, rest, events) => if |rest| > max then Failed else Done(p1, rest, events)
  }

  function Finish(max: nat, p: Pending, buf: seq<byte>): Step {
    if buf == [] then Dispatch(p)
    else
      match ConsumeLine(max, p, StripCr(buf))
      case Fail => Fail
      case Go(p1, events) =>
        match Dispatch(p1)
        case Fail => Fail
        case Go(p2, more) => Go(p2, events + more)
  }

  // ---- What a call leaves behind, also when it fails ----

  datatype Left = Left(pending: Pending, rest: seq<byte>)

  function DispatchLeft(p: Pending): Pending {
    if p.data == [] then p else Pending([], 0, p.first)
  }

  function LineLeft(max: nat, p: Pending, raw: seq<byte>): Pending {
    var line := if p.first then StripBom(raw) else raw;
    var p1 := p.(first := false);
    if line == [] then DispatchLeft(p1)
    else
      match ConsumeLine(max, p, raw)
      case Fail => p1
      case Go(p2, _) => p2
  }

  /** A line that fails has been cut from the buffer; what follows it has not been looked at. */
  function DrainLeft(max: nat, p: Pending, buf: seq<byte>): Left
    decreases |buf|
  {
    var k := Find(buf, LF);
    if k == |buf| then Left(p, buf)
    else
      match ConsumeLine(max, p, StripCr(buf[..k]))
      case Fail => Left(LineLeft(max, p, StripCr(buf[..k])), buf[k + 1..])
      case Go(p1, _) => DrainLeft(max, p1, buf[k + 1..])
  }

  function FinishLeft(max: nat, p: Pending, buf: seq<byte>): Left {
    if buf == [] then Left(DispatchLeft(p), [])
    else
      match ConsumeLine(max, p, StripCr(buf))
      case Fail => Left(LineLeft(max, p, StripCr(buf)), [])
      case Go(p1, _) => Left(DispatchLeft(p1), [])
  }

  function FeedAll(max: nat, p: Pending, buf: seq<byte>, chunks: seq<seq<byte>>): Outcome
    decreases |chunks|
  {
    if chunks == [] then Done(p, buf, [])
    else
      match Feed(max, p, buf, chunks[0])
      case Failed => Failed
      case Done(p1, rest, events) => After(events, FeedAll(max, p1, rest, chunks[1..]))
  }

  const START := Pending([], 0, true)

  /** A whole response body, as it was cut by the network. `None` is a protocol error. */
  function DecodeStream(max: nat, chunks: seq<seq<byte>>): Option<seq<string>> {
    match FeedAll(max, START, [], chunks)
    case Failed => None
    case Done(p, rest, events) =>
      match Finish(max, p, rest)
      case Fail => None
      case Go(_, more) => Some(events + more)
  }

  function Concat(chunks: seq<seq<byte>>): seq<byte> {
    if chunks == [] then [] else chunks[0] + Concat(chunks[1..])
  }

  // ---- The events of a stream, said without a decoder ----

  /** The lines of a body: what the line ends separate, the last one only if it is not empty. */
  function Lines(body: seq<byte>): seq<seq<byte>>
    decreases |body|
  {
    var k := Find(body, LF);
    if k < |body| then [StripCr(body[..k])] + Lines(body[k + 1..])
    else if body == [] then []
    else [StripCr(body)]
  }

  function WithoutBom(lines: seq<seq<byte>>): seq<seq<byte>> {
    if lines == [] then [] else [StripBom(lines[0])] + lines[1..]
  }

  /** Lines in blocks, separated by blank lines. */
  function Blocks(lines: seq<seq<byte>>): (blocks: seq<seq<seq<byte>>>)
    ensures blocks != []
  {
    if lines == [] then [[]]
    else
      var rest := Blocks(lines[1..]);
      if lines[0] == [] then [[]] + rest else [[lines[0]] + rest[0]] + rest[1..]
  }

  function Values(lines: seq<seq<byte>>): seq<seq<byte>> {
    if lines == [] then []
    else
      match DataValue(lines[0])
      case None => Values(lines[1..])
      case Some(v) => [v] + Values(lines[1..])
  }

  function Payload(values: seq<seq<byte>>): seq<seq<byte>> {
    if values == [] then [] else [JoinLines(values)]
  }

  /** One payload for every block that has data lines. */
  function Payloads(blocks: seq<seq<seq<byte>>>): seq<seq<byte>> {
    if blocks == [] then [] else Payload(Values(blocks[0])) + Payloads(blocks[1..])
  }

  function EncodeAll(events: seq<string>): seq<seq<byte>> {
    if events == [] then [] else [Encode(events[0])] + EncodeAll(events[1..])
  }
}
