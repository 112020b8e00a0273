/** The detector that updates its fields frame by frame. The candidate counters and the fields of the
    active utterance are kept together as two records. The ghost fields are the history of the stream. */
module Vad {
  import opened Text
  import opened VadSpec
  import VadRuns

  /** `_is_above`: mean square against the squared threshold, in integers. */
  method IsAbove(f: Frame, threshold: nat) returns (above: bool)
    ensures above <==> Above(f, threshold)
  {
    var squareSum, i := 0, 0;
    while i + 1 < |f.pcm|
      invariant i <= |f.pcm|
      invariant squareSum + SquareSum(f.pcm, i) == SquareSum(f.pcm, 0)
      decreases |f.pcm| - i
    {
      var sample := Sample(f.pcm[i], f.pcm[i + 1]);
      squareSum := squareSum + sample * sample;
      i := i + 2;
    }
    above := squareSum >= threshold * threshold * (|f.pcm| / 2);
  }

  /** `PcmUtterance.__post_init__`, one frame after the other. */
  method IsValidUtterance(u: Utterance) returns (ok: bool)
    ensures ok <==> ValidUtterance(u)
  {
    hide Duration;
    if u.frames == [] {
      return false;
    }
    var i := 0;
    while i < |u.frames|
      invariant i <= |u.frames|
      invariant forall j | 0 <= j < i :: u.frames[j].streamId == u.streamId && u.frames[j].format == u.format
      invariant forall j | 0 < j < i :: Follows(u.frames[j - 1], u.frames[j])
    {
      if u.frames[i].streamId != u.streamId || u.frames[i].format != u.format {
        return false;
      }
      if i > 0 && !Follows(u.frames[i - 1], u.frames[i]) {
        return false;
      }
      i := i + 1;
    }
    var capturedEnd := End(u.frames[|u.frames| - 1]);
    ok := u.frames[0].capturedAt <= u.startedAt <= capturedEnd && u.startedAt <= u.endedAt <= capturedEnd;
  }

  class EnergyVoiceActivityDetector {
    const config: Config
    var stream: Option<(int, Format)>
    var lastSequence: Option<nat>
    var lastEnd: Option<nat>
    var history: seq<Frame>
    var historyBytes: int
    var historyDuration: int
    var candidate: Candidate
    var active: Option<Active>
    ghost var heard: seq<Frame>
    ghost var events: seq<Event>
    ghost var blocks: seq<Block>
    ghost var crashed: bool

    ghost function Model(): State
      reads this
    {
      State(stream, lastSequence, lastEnd, history, historyBytes, historyDuration, candidate, active,
            heard, events, blocks, crashed)
    }

    ghost predicate Valid()
      reads this
    {
      ValidConfig(config) && VadRuns.Inv(config, Model())
    }

    constructor (c: Config)
      requires ValidConfig(c)
      ensures Valid() && config == c && Model() == Init()
    {
      config := c;
      stream, lastSequence, lastEnd := None, None, None;
      history, historyBytes, historyDuration := [], 0, 0;
      candidate, active := NO_CANDIDATE, None;
      heard, events, blocks, crashed := [], [], [], false;
      new;
      VadRuns.InitInv(c);
    }

    /** `process`; `None` is the value error of a frame that does not belong, and changes nothing. */
    method Process(f: Frame) returns (r: Option<seq<Event>>)
      requires Valid()
      modifies this
      ensures Valid() && !crashed
      ensures r.Some? <==> Admissible(config, old(Model()), f)
      ensures r.None? ==> Model() == old(Model())
      ensures r.Some? ==> Some(Model()) == VadSpec.Process(config, old(Model()), f) && events == old(events) + r.value
    {
      hide VadRuns.Inv, Duration, Idle, Speaking, ValidFrame, MaxNs, ValidConfig;
      ghost var before := Model();
      if
        || !ValidFrame(f)
        || |f.pcm| > config.maxBytes || Duration(f) > MaxNs(config)
        || (stream.Some? && stream.value != (f.streamId, f.format))
        || (lastSequence.Some? && f.sequence <= lastSequence.value)
        || (lastEnd.Some? && f.capturedAt < lastEnd.value)
      {
        NotCrashed();
        return None;
      }
      VadRuns.ProcessKeeps(config, before, f);
      stream, lastSequence, lastEnd := Some((f.streamId, f.format)), Some(f.sequence), Some(End(f));
      heard := heard + [f];
      var out;
      if active.Some? {
        out := ProcessActive(f);
      } else {
        out := ProcessIdle(f);
      }
      NotCrashed();
      return Some(out);
    }

    lemma NotCrashed()
      requires VadRuns.Inv(config, Model())
      ensures !crashed
    {
      hide VadRuns.LogIs, VadRuns.StreamIs, VadRuns.Buffers, VadRuns.BelowLimits;
    }

    /** `finish_stream`: what is being said is ended, and everything is forgotten. */
    method FinishStream() returns (r: Option<Event>)
      requires Valid()
      modifies this
      ensures Valid() && Model() == Init()
      ensures r.Some? <==> old(active).Some?
      ensures r.Some? ==> Flushed(old(Model())).events == old(events) + [r.value]
      ensures !Flushed(old(Model())).crashed
    {
      hide VadRuns.Inv, Ended, ValidConfig;
      r := None;
      if active.Some? {
        FlushKeeps();
        var out := FinishUtterance(StreamEnded, |heard|);
        r := Some(out[0]);
      } else {
        NotCrashed();
      }
      ClearStream();
      VadRuns.InitInv(config);
    }

    method ClearStream()
      modifies this
      ensures Model() == Init()
    {
      stream, lastSequence, lastEnd := None, None, None;
      history, historyBytes, historyDuration := [], 0, 0;
      candidate, active := NO_CANDIDATE, None;
      heard, events, blocks, crashed := [], [], [], false;
    }

    lemma FlushKeeps()
      requires Valid() && active.Some?
      ensures !Ended(Model(), StreamEnded, |heard|).crashed
      ensures |Ended(Model(), StreamEnded, |heard|).events| == |events| + 1
    {
      hide VadRuns.LogIs, VadRuns.StreamIs, VadRuns.Buffers, VadRuns.BelowLimits, Duration, SpeechEnd, ValidUtterance;
      VadRuns.EndNowKeeps(config, Model(), StreamEnded);
    }

    method ProcessIdle(f: Frame) returns (out: seq<Event>)
      modifies this
      ensures Model() == Idle(config, old(Model()), f)
      ensures events == old(events) + out
    {
      hide Trim, Duration, MaxNs, Above, CountBefore, SpeechEnd, ValidUtterance, Ended, Begun;
      RememberIdleFrame(f);
      Heed(f);
      if candidate.count < config.startFrames {
        return [];
      }
      out := StartUtterance(f);
      if active.Some? {
        var limit := LimitReached(config, active.value);
        if limit.Some? {
          var ended := FinishUtterance(limit.value, |heard|);
          out := out + ended;
        }
      }
    }

    /** The middle of `_process_idle`: count the loud frames that may become speech. */
    method Heed(f: Frame)
      modifies this`candidate
      ensures candidate == Heeded(config, old(candidate), f)
    {
      hide Duration, MaxNs, Above;
      var loud := IsAbove(f, config.startThreshold);
      if !loud {
        candidate := NO_CANDIDATE;
        return;
      }
      if candidate.bytes + |f.pcm| > config.maxBytes || candidate.duration + Duration(f) > MaxNs(config) {
        candidate := NO_CANDIDATE;
      }
      if candidate.count == 0 {
        candidate := candidate.(start := Some(Mark(f.capturedAt, f.sequence)));
      }
      candidate := candidate.(count := candidate.count + 1, bytes := candidate.bytes + |f.pcm|,
                              duration := candidate.duration + Duration(f));
    }

    method RememberIdleFrame(f: Frame)
      modifies this
      ensures Model() == Remembered(config, old(Model()), f)
    {
      hide Duration, MaxNs;
      history := history + [f];
      historyBytes := historyBytes + |f.pcm|;
      historyDuration := historyDuration + Duration(f);
      ghost var all := Kept(history, historyBytes, historyDuration);
      while !Fits(config, |history|, historyBytes, historyDuration) && history != []
        invariant Trim(config, Kept(history, historyBytes, historyDuration)) == Trim(config, all)
        invariant Model() == old(Model()).(history := history, historyBytes := historyBytes, historyDuration := historyDuration)
        decreases |history|
      {
        historyBytes := historyBytes - |history[0].pcm|;
        historyDuration := historyDuration - Duration(history[0]);
        history := history[1..];
      }
      crashed := crashed || !Fits(config, |history|, historyBytes, historyDuration);
    }

    method StartUtterance(trigger: Frame) returns (out: seq<Event>)
      modifies this
      ensures Model() == Begun(old(Model()), trigger)
      ensures events == old(events) + out
    {
      if candidate.start.None? || stream.None? {
        crashed := true;
        return [];
      }
      var start := candidate.start.value;
      var id := UtteranceId(stream.value.0, start.sequence);
      var preRoll := CountPreRoll(start.sequence);
      active := Some(Active(history, historyBytes, historyDuration, id, start.at, 0, None));
      history, historyBytes, historyDuration := [], 0, 0;
      candidate := NO_CANDIDATE;
      out := [SpeechStarted(id, start.at, trigger.sequence, preRoll)];
      events := events + out;
    }

    method CountPreRoll(sequence: nat) returns (n: nat)
      ensures n == CountBefore(history, sequence)
    {
      n := 0;
      var i := 0;
      while i < |history|
        invariant i <= |history|
        invariant n + CountBefore(history[i..], sequence) == CountBefore(history, sequence)
      {
        assert history[i..][1..] == history[i + 1..];
        if history[i].sequence < sequence {
          n := n + 1;
        }
        i := i + 1;
      }
    }

    /** `_finish_utterance`: `upTo` is how many of the heard frames precede the end. */
    method FinishUtterance(reason: Reason, ghost upTo: int) returns (out: seq<Event>)
      modifies this
      ensures Model() == Ended(old(Model()), reason, upTo)
      ensures events == old(events) + out
    {
      hide SpeechEnd, ValidUtterance;
      if active.None? || stream.None? {
        crashed := true;
        return [];
      }
      var a := active.value;
      var u := Utterance(a.id, stream.value.0, stream.value.1, a.frames, a.startedAt, SpeechEnd(a, reason), reason);
      var ok := IsValidUtterance(u);
      crashed := crashed || !ok;
      out := [SpeechEnded(a.id, u.endedAt, reason, u)];
      events := events + out;
      blocks := blocks + [Block(upTo - |a.frames|, upTo)];
      active := None;
      candidate := NO_CANDIDATE;
    }

    method ProcessActive(f: Frame) returns (out: seq<Event>)
      requires active.Some?
      modifies this
      ensures Model() == Speaking(config, old(Model()), f)
      ensures events == old(events) + out
    {
      hide Duration, MaxNs, Above, Idle, SpeechEnd, ValidUtterance;
      var a := active.value;
      if a.bytes + |f.pcm| > config.maxBytes {
        out := CutShort(f, MaxBytes);
        return;
      }
      if a.duration + Duration(f) > MaxNs(config) {
        out := CutShort(f, MaxDuration);
        return;
      }
      var above := IsAbove(f, config.endThreshold);
      var silence, silenceAt := a.silence, a.silenceAt;
      if above {
        silence, silenceAt := 0, None;
      } else {
        if silence == 0 {
          silenceAt := Some(f.capturedAt);
        }
        silence := silence + 1;
      }
      active := Some(a.(frames := a.frames + [f], bytes := a.bytes + |f.pcm|, duration := a.duration + Duration(f),
                        silence := silence, silenceAt := silenceAt));
      assert active.value == Extended(config, a, f);
      var limit := LimitReached(config, active.value);
      if limit.Some? {
        out := FinishUtterance(limit.value, |heard|);
      } else if silence >= config.endFrames {
        out := FinishUtterance(Silence, |heard|);
      } else {
        out := [];
      }
    }

    /** The frame does not fit any more: it is the first to be heard after the utterance. */
    method CutShort(f: Frame, reason: Reason) returns (out: seq<Event>)
      requires active.Some?
      modifies this
      ensures Model() == Idle(config, Ended(old(Model()), reason, |old(heard)| - 1), f)
      ensures events == old(events) + out
    {
      hide Idle, SpeechEnd, ValidUtterance;
      var ended := FinishUtterance(reason, |heard| - 1);
      var rest := ProcessIdle(f);
      out := ended + rest;
    }
  }
}
