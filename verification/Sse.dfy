/** The incremental decoder, which keeps its buffers in fields. */
module Sse {
  import opened Text
  import opened Octets
  import opened Utf8
  import opened SseSpec
  import SseProofs

  class SseDecoder {
    const maxEventBytes: nat
    var lineBuffer: seq<byte>
    var dataLines: seq<seq<byte>>
    var eventBytes: nat
    var firstLine: bool

    function Model(): Pending
      reads this
    {
      Pending(dataLines, eventBytes, firstLine)
    }

    ghost predicate Valid()
      reads this
    {
      SseProofs.Counted(maxEventBytes, Model()) && LF !in lineBuffer && |lineBuffer| <= maxEventBytes
    }

    constructor (max: nat)
      ensures Valid() && maxEventBytes == max && Model() == START && lineBuffer == []
    {
      maxEventBytes := max;
      lineBuffer, dataLines, eventBytes, firstLine := [], [], 0, true;
      new;
      SseProofs.NothingJoined();
    }

    /** `feed`; `None` is the protocol error. */
    method Feed(chunk: seq<byte>) returns (r: Option<seq<string>>)
      requires Valid()
      modifies this
      ensures r.Some? <==> SseSpec.Feed(maxEventBytes, old(Model()), old(lineBuffer), chunk).Done?
      ensures r.Some? ==> Valid() && SseProofs.AllWithin(maxEventBytes, r.value)
      ensures r.Some? ==>
        SseSpec.Feed(maxEventBytes, old(Model()), old(lineBuffer), chunk) == Done(Model(), lineBuffer, r.value)
      ensures Left(Model(), lineBuffer) == DrainLeft(maxEventBytes, old(Model()), old(lineBuffer) + chunk)
    {
      hide SseSpec.ConsumeLine, LineLeft, Find, SseProofs.Counted, SseProofs.AllWithin;
      lineBuffer := lineBuffer + chunk;
      ghost var start, all := Model(), lineBuffer;
      var events := [];
      var newline := Find(lineBuffer, LF);
      while newline < |lineBuffer|
        invariant newline == Find(lineBuffer, LF)
        invariant Drain(maxEventBytes, start, all) == After(events, Drain(maxEventBytes, Model(), lineBuffer))
        invariant DrainLeft(maxEventBytes, start, all) == DrainLeft(maxEventBytes, Model(), lineBuffer)
        decreases |lineBuffer|
      {
        var rawLine := StripCr(lineBuffer[..newline]);
        ghost var p, buf := Model(), lineBuffer;
        lineBuffer := lineBuffer[newline + 1..];
        var step := ConsumeLine(rawLine);
        if step.None? {
          return None;
        }
        SseProofs.AfterAfter(events, step.value, Drain(maxEventBytes, Model(), lineBuffer));
        events := events + step.value;
        newline := Find(lineBuffer, LF);
      }
      assert events + [] == events;
      if |lineBuffer| > maxEventBytes {
        return None;
      }
      SseProofs.DrainBounded(maxEventBytes, start, all);
      NoNewline();
      return Some(events);
    }

    lemma NoNewline()
      requires Find(lineBuffer, LF) == |lineBuffer|
      ensures LF !in lineBuffer
    {
      assert lineBuffer[..|lineBuffer|] == lineBuffer;
    }

    method ConsumeLine(raw: seq<byte>) returns (r: Option<seq<string>>)
      modifies this`dataLines, this`eventBytes, this`firstLine
      ensures r.Some? <==> SseSpec.ConsumeLine(maxEventBytes, old(Model()), raw).Go?
      ensures r.Some? ==> SseSpec.ConsumeLine(maxEventBytes, old(Model()), raw) == Go(Model(), r.value)
      ensures Model() == LineLeft(maxEventBytes, old(Model()), raw)
    {
      hide Decode, JoinLines, StripBom;
      var line := raw;
      if firstLine {
        firstLine := false;
        line := StripBom(line);
      }
      if |line| > maxEventBytes {
        return None;
      }
      if line == [] {
        r := Dispatch();
        return;
      }
      if line[0] == COLON {
        assert Find(line, COLON) == 0;
        return Some([]);
      }
      var value := DataValue(line);
      if value.None? {
        return Some([]);
      }
      var added := |value.value| + if dataLines == [] then 0 else 1;
      if eventBytes + added > maxEventBytes {
        return None;
      }
      dataLines := dataLines + [value.value];
      eventBytes := eventBytes + added;
      return Some([]);
    }

    method Dispatch() returns (r: Option<seq<string>>)
      modifies this`dataLines, this`eventBytes
      ensures r.Some? <==> SseSpec.Dispatch(old(Model())).Go?
      ensures r.Some? ==> SseSpec.Dispatch(old(Model())) == Go(Model(), r.value)
      ensures Model() == DispatchLeft(old(Model()))
    {
      hide Decode, JoinLines;
      if dataLines == [] {
        return Some([]);
      }
      var payload := JoinLines(dataLines);
      dataLines := [];
      eventBytes := 0;
      var text := Decode(payload);
      if text.None? {
        return None;
      }
      return Some([text.value]);
    }

    method Finish() returns (r: Option<seq<string>>)
      requires Valid()
      modifies this
      ensures r.Some? <==> SseSpec.Finish(maxEventBytes, old(Model()), old(lineBuffer)).Go?
      ensures r.Some? ==>
        && SseSpec.Finish(maxEventBytes, old(Model()), old(lineBuffer)) == Go(Model(), r.value)
        && SseProofs.AllWithin(maxEventBytes, r.value)
      ensures Left(Model(), lineBuffer) == FinishLeft(maxEventBytes, old(Model()), old(lineBuffer))
    {
      hide SseSpec.ConsumeLine, LineLeft, DispatchLeft, SseSpec.Dispatch, SseProofs.Counted;
      ghost var p, buf := Model(), lineBuffer;
      var events := [];
      if lineBuffer != [] {
        var rawLine := StripCr(lineBuffer);
        lineBuffer := [];
        var step := ConsumeLine(rawLine);
        if step.None? {
          return None;
        }
        events := step.value;
      }
      var last := Dispatch();
      if last.None? {
        return None;
      }
      r := Some(events + last.value);
      assert buf == [] ==> r.value == last.value;
      SseProofs.FinishBounded(maxEventBytes, p, buf);
    }
  }
}
