/** The energy voice activity detector as functions of its state. `heard` is every frame accepted since
    the stream began, `events` everything emitted for it, and `blocks` which frames of `heard` each
    finished utterance took. `crashed` records that some call left by an exception other than the value
    error of `_validate_stream_frame`. */
module VadSpec {
  import opened Text
  import opened Octets

  datatype Format = Format(sampleRate: nat, channels: nat)

  datatype Frame = Frame(streamId: int, sequence: nat, capturedAt: nat, format: Format, pcm: seq<byte>)

  predicate ValidFormat(f: Format) {
    8_000 <= f.sampleRate <= 192_000 && 1 <= f.channels <= 8
  }

  predicate ValidFrame(f: Frame) {
    ValidFormat(f.format) && f.pcm != [] && |f.pcm| % (2 * f.format.channels) == 0
  }

  function Quotient(a: nat, b: nat): nat {
    if b == 0 then 0 else a / b
  }

  function SampleFrames(f: Frame): nat {
    Quotient(|f.pcm|, 2 * f.format.channels)
  }

  function Duration(f: Frame): nat {
    Quotient(SampleFrames(f) * 1_000_000_000, f.format.sampleRate)
  }

  function End(f: Frame): nat {
    f.capturedAt + Duration(f)
  }

  datatype Reason = Silence | MaxDuration | MaxBytes | StreamEnded

  /** `uuid5` of the stream and the sequence number where speech began. */
  datatype UtteranceId = UtteranceId(streamId: int, startSequence: nat)

  datatype Utterance = Utterance(id: UtteranceId, streamId: int, format: Format, frames: seq<Frame>,
                                 startedAt: nat, endedAt: nat, reason: Reason)

  /** What `PcmUtterance` demands of itself when it is built. */
  predicate ValidUtterance(u: Utterance) {
    var n := |u.frames|;
    && n > 0
    && (forall i | 0 <= i < n :: u.frames[i].streamId == u.streamId && u.frames[i].format == u.format)
    && (forall i | 0 < i < n :: Follows(u.frames[i - 1], u.frames[i]))
    && u.frames[0].capturedAt <= u.startedAt <= End(u.frames[n - 1])
    && u.startedAt <= u.endedAt <= End(u.frames[n - 1])
  }

  predicate Follows(f: Frame, g: Frame) {
    f.sequence < g.sequence && End(f) <= g.capturedAt
  }

  datatype Event =
    | SpeechStarted(id: UtteranceId, at: nat, triggerSequence: nat, preRoll: nat)
    | SpeechEnded(id: UtteranceId, at: nat, reason: Reason, utterance: Utterance)

  datatype Config = Config(startThreshold: nat, endThreshold: nat, startFrames: nat, endFrames: nat,
                           preRollFrames: nat, maxDurationMs: nat, maxBytes: nat)

  predicate ValidConfig(c: Config) {
    && 1 <= c.endThreshold <= c.startThreshold <= 32_767
    && c.startFrames >= 1 && c.endFrames >= 1 && c.maxDurationMs >= 1 && c.maxBytes >= 2
  }

  function MaxNs(c: Config): nat {
    c.maxDurationMs * 1_000_000
  }

  datatype Mark = Mark(at: nat, sequence: nat)

  datatype Candidate = Candidate(count: nat, bytes: nat, duration: nat, start: Option<Mark>)

  const NO_CANDIDATE := Candidate(0, 0, 0, None)

  datatype Active = Active(frames: seq<Frame>, bytes: int, duration: int, id: UtteranceId, startedAt: nat,
                           silence: nat, silenceAt: Option<nat>)

  datatype Block = Block(from: int, to: int)

  datatype State = State(
    stream: Option<(int, Format)>,
    lastSequence: Option<nat>,
    lastEnd: Option<nat>,
    history: seq<Frame>,
    historyBytes: int,
    historyDuration: int,
    candidate: Candidate,
    active: Option<Active>,
    heard: seq<Frame>,
    events: seq<Event>,
    blocks: seq<Block>,
    crashed: bool)

  function Init(): State {
    State(None, None, None, [], 0, 0, NO_CANDIDATE, None, [], [], [], false)
  }

  // ---- Energy ----

  function Sample(lo: byte, hi: byte): int {
    var n := lo as int + 256 * hi as int;
    if n >= 32_768 then n - 65_536 else n
  }

  function SquareSum(pcm: seq<byte>, i: nat): nat
    decreases |pcm| - i
  {
    if i + 1 >= |pcm| then 0
    else Sample(pcm[i], pcm[i + 1]) * Sample(pcm[i], pcm[i + 1]) + SquareSum(pcm, i + 2)
  }

  predicate Above(f: Frame, threshold: nat) {
    SquareSum(f.pcm, 0) >= threshold * threshold * (|f.pcm| / 2)
  }

  // ---- One frame ----

  /** `_validate_stream_frame`. */
  predicate Admissible(c: Config, s: State, f: Frame) {
    && ValidFrame(f)
    && |f.pcm| <= c.maxBytes && Duration(f) <= MaxNs(c)
    && (s.stream.Some? ==> s.stream.value == (f.streamId, f.format))
    && (s.lastSequence.Some? ==> f.sequence > s.lastSequence.value)
    && (s.lastEnd.Some? ==> f.capturedAt >= s.lastEnd.value)
  }

  datatype Kept = Kept(frames: seq<Frame>, bytes: int, duration: int)

  predicate Fits(c: Config, count: nat, bytes: int, duration: int) {
    count <= c.preRollFrames + c.startFrames && bytes <= c.maxBytes && duration <= MaxNs(c)
  }

  /** The trimming loop of `_remember_idle_frame`. */
  function Trim(c: Config, k: Kept): Kept
    decreases |k.frames|
  {
    if Fits(c, |k.frames|, k.bytes, k.duration) || k.frames == [] then k
    else Trim(c, Kept(k.frames[1..], k.bytes - |k.frames[0].pcm|, k.duration - Duration(k.frames[0])))
  }

  function Remembered(c: Config, s: State, f: Frame): State {
    var k := Trim(c, Kept(s.history + [f], s.historyBytes + |f.pcm|, s.historyDuration + Duration(f)));
    s.(history := k.frames, historyBytes := k.bytes, historyDuration := k.duration,
       crashed := s.crashed || !Fits(c, |k.frames|, k.bytes, k.duration))
  }

  /** How a frame changes the run of loud frames that may become speech. */
  function Heeded(c: Config, cand: Candidate, f: Frame): Candidate {
    if !Above(f, c.startThreshold) then NO_CANDIDATE
    else
      var base := if cand.bytes + |f.pcm| > c.maxBytes || cand.duration + Duration(f) > MaxNs(c) then NO_CANDIDATE else cand;
      Candidate(base.count + 1, base.bytes + |f.pcm|, base.duration + Duration(f),
                if base.count == 0 then Some(Mark(f.capturedAt, f.sequence)) else base.start)
  }

  function CountBefore(frames: seq<Frame>, sequence: nat): nat {
    if frames == [] then 0 else (if frames[0].sequence < sequence then 1 else 0) + CountBefore(frames[1..], sequence)
  }

  /** `_start_utterance`; a missing candidate or stream is the source's runtime error. */
  function Begun(s: State, trigger: Frame): State {
    if s.candidate.start.None? || s.stream.None? then s.(crashed := true)
    else
      var start := s.candidate.start.value;
      var id := UtteranceId(s.stream.value.0, start.sequence);
      s.(active := Some(Active(s.history, s.historyBytes, s.historyDuration, id, start.at, 0, None)),
         history := [], historyBytes := 0, historyDuration := 0, candidate := NO_CANDIDATE,
         events := s.events + [SpeechStarted(id, start.at, trigger.sequence, CountBefore(s.history, start.sequence))])
  }

  function LimitReached(c: Config, a: Active): Option<Reason> {
    if a.duration >= MaxNs(c) then Some(MaxDuration)
    else if a.bytes >= c.maxBytes then Some(MaxBytes)
    else None
  }

  function SpeechEnd(a: Active, reason: Reason): nat {
    if reason == Silence && a.silenceAt.Some? then a.silenceAt.value
    else if a.frames != [] then End(a.frames[|a.frames| - 1])
    else 0
  }

  /** `_finish_utterance` and `_clear_utterance`; `upTo` frames of `heard` have been taken. */
  function Ended(s: State, reason: Reason, upTo: int): State {
    if s.active.None? || s.stream.None? then s.(crashed := true)
    else
      var a := s.active.value;
      var u := Utterance(a.id, s.stream.value.0, s.stream.value.1, a.frames, a.startedAt, SpeechEnd(a, reason), reason);
      s.(active := None, candidate := NO_CANDIDATE,
         events := s.events + [SpeechEnded(a.id, u.endedAt, reason, u)],
         blocks := s.blocks + [Block(upTo - |a.frames|, upTo)],
         crashed := s.crashed || !ValidUtterance(u))
  }

  function EndedAtLimit(c: Config, s: State): State {
    if s.active.Some? && LimitReached(c, s.active.value).Some?
    then Ended(s, LimitReached(c, s.active.value).value, |s.heard|) else s
  }

  /** `_process_idle`. */
  function Idle(c: Config, s: State, f: Frame): State {
    var s1 := Remembered(c, s, f);
    var s2 := s1.(candidate := Heeded(c, s.candidate, f));
    if s2.candidate.count < c.startFrames then s2 else EndedAtLimit(c, Begun(s2, f))
  }

  function Extended(c: Config, a: Active, f: Frame): Active {
    var quiet := !Above(f, c.endThreshold);
    a.(frames := a.frames + [f], bytes := a.bytes + |f.pcm|, duration := a.duration + Duration(f),
       silence := if quiet then a.silence + 1 else 0,
       silenceAt := if !quiet then None else if a.silence == 0 then Some(f.capturedAt) else a.silenceAt)
  }

  /** `_process_active`. */
  function Speaking(c: Config, s: State, f: Frame): State
    requires s.active.Some?
  {
    var a := s.active.value;
    if a.bytes + |f.pcm| > c.maxBytes then Idle(c, Ended(s, MaxBytes, |s.heard| - 1), f)
    else if a.duration + Duration(f) > MaxNs(c) then Idle(c, Ended(s, MaxDuration, |s.heard| - 1), f)
    else
      var b := Extended(c, a, f);
      var s1 := s.(active := Some(b));
      if LimitReached(c, b).Some? then EndedAtLimit(c, s1)
      else if b.silence >= c.endFrames then Ended(s1, Silence, |s.heard|)
      else s1
  }

  function Noted(s: State, f: Frame): State {
    s.(stream := Some((f.streamId, f.format)), lastSequence := Some(f.sequence), lastEnd := Some(End(f)),
       heard := s.heard + [f])
  }

  /** `process`; `None` is the value error of a frame that does not belong. */
  function Process(c: Config, s: State, f: Frame): Option<State> {
    if !Admissible(c, s, f) then None
    else if s.active.Some? then Some(Speaking(c, Noted(s, f), f))
    else Some(Idle(c, Noted(s, f), f))
  }

  /** What `finish_stream` emits, before everything is cleared. */
  function Flushed(s: State): State {
    if s.active.Some? then Ended(s, StreamEnded, |s.heard|) else s
  }

  /** One capture stream: every frame in turn, stopping at the first that is refused. */
  function Execute(c: Config, frames: seq<Frame>): Option<State> {
    if frames == [] then Some(Init())
    else
      var s := Execute(c, frames[..|frames| - 1]);
      if s.None? then None else Process(c, s.value, frames[|frames| - 1])
  }
}
