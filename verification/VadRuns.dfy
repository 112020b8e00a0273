/** Every run of the detector: what each frame keeps, and the theorems about whole streams. */
module VadRuns {
  import opened Text
  import opened VadSpec
  import opened VadProofs

  // ---- The record of finished utterances ----

  function Cut(blocks: seq<Block>): int {
    if blocks == [] then 0 else blocks[|blocks| - 1].to
  }

  /** Where the utterance before block `i` ended. */
  function Floor(blocks: seq<Block>, i: nat): int
    requires i <= |blocks|
  {
    if i == 0 then 0 else blocks[i - 1].to
  }

  predicate InOrder(blocks: seq<Block>) {
    forall i, j | 0 <= i < j < |blocks| :: blocks[i].to <= blocks[j].from
  }

  ghost predicate Paired(c: Config, heard: seq<Frame>, events: seq<Event>, blocks: seq<Block>) {
    && 2 * |blocks| <= |events|
    && forall i | 0 <= i < |blocks| :: Pair(c, heard, events[2 * i], events[2 * i + 1], blocks[i], Floor(blocks, i))
  }

  ghost predicate LogIs(c: Config, heard: seq<Frame>, events: seq<Event>, blocks: seq<Block>, open: bool) {
    && |events| == 2 * |blocks| + (if open then 1 else 0)
    && Paired(c, heard, events, blocks) && InOrder(blocks)
  }

  lemma PairHears(c: Config, heard: seq<Frame>, e0: Event, e1: Event, b: Block, lo: int, f: Frame)
    requires Pair(c, heard, e0, e1, b, lo)
    ensures Pair(c, heard + [f], e0, e1, b, lo)
  {
    hide Said, Bytes, Time, Duration, MaxNs, FullFrom;
    FullAppend(c, heard, f, lo, b.from, e0.preRoll + c.startFrames);
    assert (heard + [f])[b.from..b.to] == heard[b.from..b.to];
  }

  lemma LogHears(c: Config, heard: seq<Frame>, events: seq<Event>, blocks: seq<Block>, open: bool, f: Frame)
    requires LogIs(c, heard, events, blocks, open)
    ensures LogIs(c, heard + [f], events, blocks, open)
  {
    hide Pair, InOrder;
    forall i | 0 <= i < |blocks| ensures Pair(c, heard + [f], events[2 * i], events[2 * i + 1], blocks[i], Floor(blocks, i)) {
      PairHears(c, heard, events[2 * i], events[2 * i + 1], blocks[i], Floor(blocks, i), f);
    }
  }

  lemma LogOpens(c: Config, heard: seq<Frame>, events: seq<Event>, blocks: seq<Block>, e: Event)
    requires LogIs(c, heard, events, blocks, false)
    ensures LogIs(c, heard, events + [e], blocks, true)
  {
    hide Pair, InOrder;
    var more := events + [e];
    forall i | 0 <= i < |blocks| ensures Pair(c, heard, more[2 * i], more[2 * i + 1], blocks[i], Floor(blocks, i)) {
      assert Pair(c, heard, events[2 * i], events[2 * i + 1], blocks[i], Floor(blocks, i));
      assert more[2 * i] == events[2 * i] && more[2 * i + 1] == events[2 * i + 1];
    }
  }

  lemma PairBounds(c: Config, heard: seq<Frame>, e0: Event, e1: Event, b: Block, lo: int)
    requires Pair(c, heard, e0, e1, b, lo)
    ensures 0 <= b.from < b.to <= |heard|
  {
    hide Said, FullFrom, EndedFor;
  }

  lemma CutBounds(c: Config, heard: seq<Frame>, events: seq<Event>, blocks: seq<Block>, open: bool)
    requires LogIs(c, heard, events, blocks, open)
    ensures 0 <= Cut(blocks) <= |heard|
    ensures forall i | 0 <= i < |blocks| :: blocks[i].to <= Cut(blocks)
  {
    hide Pair;
    var n := |blocks| - 1;
    if n >= 0 {
      PairBounds(c, heard, events[2 * n], events[2 * n + 1], blocks[n], Floor(blocks, n));
    }
  }

  lemma LogCloses(c: Config, heard: seq<Frame>, events: seq<Event>, blocks: seq<Block>, e: Event, b: Block)
    requires LogIs(c, heard, events, blocks, true)
    requires Pair(c, heard, events[|events| - 1], e, b, Cut(blocks)) && Cut(blocks) <= b.from
    ensures LogIs(c, heard, events + [e], blocks + [b], false)
  {
    hide Pair;
    CutBounds(c, heard, events, blocks, true);
    assert InOrder(blocks + [b]);
    hide InOrder;
    var more, all := events + [e], blocks + [b];
    forall i | 0 <= i < |all| ensures Pair(c, heard, more[2 * i], more[2 * i + 1], all[i], Floor(all, i)) {
      if i < |blocks| {
        assert Pair(c, heard, events[2 * i], events[2 * i + 1], blocks[i], Floor(blocks, i));
        SameFloor(blocks, b, i);
        assert more[2 * i] == events[2 * i] && more[2 * i + 1] == events[2 * i + 1];
      } else {
        SameFloor(blocks, b, i);
        assert more[2 * i] == events[|events| - 1] && more[2 * i + 1] == e;
      }
    }
  }

  lemma SameFloor(blocks: seq<Block>, b: Block, i: nat)
    requires i <= |blocks|
    ensures Floor(blocks + [b], i) == Floor(blocks, i) && Floor(blocks, |blocks|) == Cut(blocks)
  {
  }

  // ---- The invariant ----

  predicate StreamIs(heard: seq<Frame>, stream: Option<(int, Format)>, lastSequence: Option<nat>, lastEnd: Option<nat>) {
    if heard == [] then stream == None && lastSequence == None && lastEnd == None
    else
      var last := heard[|heard| - 1];
      && stream == Some((last.streamId, last.format)) && OneStream(heard, stream.value)
      && lastSequence == Some(last.sequence) && lastEnd == Some(End(last))
  }

  /** The part of the state that does not depend on whether somebody is speaking. */
  ghost predicate Tracked(c: Config, s: State) {
    && !s.crashed && Chain(s.heard)
    && StreamIs(s.heard, s.stream, s.lastSequence, s.lastEnd)
    && LogIs(c, s.heard, s.events, s.blocks, s.active.Some?)
  }

  function Since(heard: seq<Frame>, blocks: seq<Block>): seq<Frame> {
    var cut := Cut(blocks);
    if 0 <= cut <= |heard| then heard[cut..] else []
  }

  function Last(fs: seq<Frame>, n: nat): seq<Frame> {
    if n <= |fs| then fs[|fs| - n..] else fs
  }

  predicate Waiting(c: Config, since: seq<Frame>, k: Kept, cand: Candidate) {
    cand.count < c.startFrames && IdleIs(c, since, k, Last(k.frames, cand.count), cand)
  }

  ghost predicate Talking(c: Config, since: seq<Frame>, events: seq<Event>, a: Active) {
    && events != []
    && IsActive(c, since, events[|events| - 1], a)
  }

  ghost predicate Buffers(c: Config, s: State) {
    match s.active
    case None => Waiting(c, Since(s.heard, s.blocks), Kept(s.history, s.historyBytes, s.historyDuration), s.candidate)
    case Some(a) =>
      && Kept(s.history, s.historyBytes, s.historyDuration) == Kept([], 0, 0) && s.candidate == NO_CANDIDATE
      && Talking(c, Since(s.heard, s.blocks), s.events, a)
  }

  predicate BelowLimits(c: Config, a: Active) {
    LimitReached(c, a).None? && a.silence < c.endFrames
  }

  ghost predicate Inv(c: Config, s: State) {
    && Tracked(c, s) && Buffers(c, s)
    && (s.active.Some? ==> BelowLimits(c, s.active.value))
  }

  lemma WaitingForNothing(c: Config, since: seq<Frame>)
    requires ValidConfig(c) && since == []
    ensures Waiting(c, since, Kept([], 0, 0), NO_CANDIDATE)
  {
    EmptySums();
  }

  lemma InitInv(c: Config)
    requires ValidConfig(c)
    ensures Inv(c, Init())
  {
    WaitingForNothing(c, []);
  }

  // ---- One frame at a time ----

  lemma SinceHears(heard: seq<Frame>, blocks: seq<Block>, f: Frame)
    requires 0 <= Cut(blocks) <= |heard|
    ensures Since(heard + [f], blocks) == Since(heard, blocks) + [f]
  {
  }

  lemma SinceSuffix(heard: seq<Frame>, blocks: seq<Block>)
    requires 0 <= Cut(blocks) <= |heard|
    ensures Suffix(Since(heard, blocks), heard)
  {
  }

  lemma NotedKeeps(c: Config, s: State, f: Frame)
    requires Tracked(c, s) && Admissible(c, s, f)
    ensures Tracked(c, Noted(s, f))
    ensures Since(s.heard + [f], s.blocks) == Since(s.heard, s.blocks) + [f]
  {
    hide Duration, LogIs, Chain, ValidFrame;
    LogHears(c, s.heard, s.events, s.blocks, s.active.Some?, f);
    CutBounds(c, s.heard, s.events, s.blocks, s.active.Some?);
    SinceHears(s.heard, s.blocks, f);
    ChainAppend(s.heard, f);
  }

  /** The utterance being spoken is taken from the frames up to `upTo`. */
  lemma EndKeeps(c: Config, s: State, reason: Reason, upTo: nat, since: seq<Frame>)
    requires ValidConfig(c) && Tracked(c, s) && s.active.Some?
    requires Cut(s.blocks) <= upTo <= |s.heard| && 0 <= Cut(s.blocks)
    requires since == s.heard[Cut(s.blocks)..upTo]
    requires Talking(c, since, s.events, s.active.value)
    requires reason == Silence ==> s.active.value.silence == c.endFrames
    requires EndedFor(c, s.heard, upTo, s.active.value.frames, reason)
    ensures Tracked(c, Ended(s, reason, upTo))
    ensures Since(s.heard, Ended(s, reason, upTo).blocks) == s.heard[upTo..]
  {
    hide Duration, LogIs, Chain, Opening, QuietTail, ValidUtterance, Bytes, Time, MaxNs, SpeechEnd, Said, Suffix, OneStream, EndedFor, FullFrom;
    var a := s.active.value;
    var e := s.events[|s.events| - 1];
    var k: nat :| ActiveIs(c, since, e, a, k);
    ActiveHasFrames(c, since, e, a, k);
    SliceChain(s.heard, Cut(s.blocks), upTo);
    SliceOneStream(s.heard, Cut(s.blocks), upTo, s.stream.value);
    SealStep(c, since, e, a, k, s.stream.value, reason);
    var e1 := SpeechEnded(a.id, SpeechEnd(a, reason), reason, Sealed(a, s.stream.value, reason));
    var b := Block(upTo - |a.frames|, upTo);
    SliceSuffix(s.heard, Cut(s.blocks), upTo, a.frames);
    FullShifts(c, s.heard, Cut(s.blocks), upTo, |since| - |a.frames|, k + c.startFrames);
    OpeningStarts(c, e, a.id, a.startedAt, a.frames, k);
    assert Pair(c, s.heard, e, e1, b, Cut(s.blocks));
    LogCloses(c, s.heard, s.events, s.blocks, e1, b);
  }

  lemma OpeningStarts(c: Config, e: Event, id: UtteranceId, startedAt: nat, frames: seq<Frame>, k: nat)
    requires Opening(c, e, id, startedAt, frames, k)
    ensures e.SpeechStarted? && e.preRoll == k
  {
    hide Loud;
  }

  lemma SliceChain(fs: seq<Frame>, i: nat, j: nat)
    requires Chain(fs) && i <= j <= |fs|
    ensures Chain(fs[i..j])
  {
    hide Precedes;
    var part := fs[i..j];
    forall x, y | 0 <= x < y < |part| ensures Precedes(part[x], part[y]) {
      assert part[x] == fs[i + x] && part[y] == fs[i + y];
    }
  }

  lemma SliceOneStream(fs: seq<Frame>, i: nat, j: nat, stream: (int, Format))
    requires OneStream(fs, stream) && i <= j <= |fs|
    ensures OneStream(fs[i..j], stream)
  {
  }

  lemma SliceSuffix(fs: seq<Frame>, i: nat, j: nat, part: seq<Frame>)
    requires i <= j <= |fs| && Suffix(part, fs[i..j])
    ensures i <= j - |part| && part == fs[j - |part|..j]
  {
    assert fs[i..j][j - i - |part|..] == fs[j - |part|..j];
  }

  /** The utterance ends with the latest frame: back to waiting. */
  lemma EndNowKeeps(c: Config, s: State, reason: Reason)
    requires ValidConfig(c) && Tracked(c, s) && Buffers(c, s) && s.active.Some?
    requires reason == Silence ==> s.active.value.silence == c.endFrames
    requires EndedFor(c, s.heard, |s.heard|, s.active.value.frames, reason)
    ensures Inv(c, Ended(s, reason, |s.heard|))
  {
    hide EndedFor, LogIs, Chain, StreamIs, Talking, SpeechEnd, ValidUtterance, Waiting;
    CutBounds(c, s.heard, s.events, s.blocks, true);
    var n := |s.heard|;
    assert s.heard[Cut(s.blocks)..n] == Since(s.heard, s.blocks);
    EndKeeps(c, s, reason, n, Since(s.heard, s.blocks));
    WaitingForNothing(c, s.heard[n..]);
  }

  lemma RunIsLast(run: seq<Frame>, fs: seq<Frame>)
    requires Suffix(run, fs)
    ensures run == Last(fs, |run|)
  {
  }

  /** A frame heard while nobody speaks. `since` is what was heard before it. */
  lemma IdleKeeps(c: Config, s: State, f: Frame, since: seq<Frame>)
    requires ValidConfig(c) && Tracked(c, s) && s.active.None?
    requires |f.pcm| <= c.maxBytes && Duration(f) <= MaxNs(c)
    requires Since(s.heard, s.blocks) == since + [f]
    requires Waiting(c, since, Kept(s.history, s.historyBytes, s.historyDuration), s.candidate)
    ensures Inv(c, Idle(c, s, f))
  {
    hide Duration, LogIs, Chain, StreamIs, MaxNs, Trim, Heeded, Since, IdleIs, NextRun, Last, Begun, EndedAtLimit, BelowLimits;
    var k := Kept(s.history, s.historyBytes, s.historyDuration);
    var run := Last(k.frames, s.candidate.count);
    IdleParts(c, since, k, run, s.candidate);
    IdleStep(c, since, k, run, s.candidate, f);
    var k1 := Trim(c, Kept(k.frames + [f], k.bytes + |f.pcm|, k.duration + Duration(f)));
    var run1 := NextRun(c, run, f);
    var cand1 := Heeded(c, s.candidate, f);
    IdleParts(c, since + [f], k1, run1, cand1);
    RunIsLast(run1, k1.frames);
    var s2 := Remembered(c, s, f).(candidate := cand1);
    if cand1.count >= c.startFrames {
      BegunKeeps(c, s2, f, since, run1);
      AtLimitKeeps(c, Begun(s2, f));
    }
  }

  lemma AtLimitKeeps(c: Config, s: State)
    requires ValidConfig(c) && Tracked(c, s) && Buffers(c, s) && s.active.Some?
    requires s.active.value.silence < c.endFrames
    ensures Inv(c, EndedAtLimit(c, s))
  {
    hide Tracked, Ended, IsActive, Since, Bytes, Time, MaxNs;
    if LimitReached(c, s.active.value).Some? {
      ActiveSums(c, Since(s.heard, s.blocks), s.events[|s.events| - 1], s.active.value);
      hide Buffers;
      EndNowKeeps(c, s, LimitReached(c, s.active.value).value);
    }
  }

  lemma BegunKeeps(c: Config, s: State, f: Frame, since: seq<Frame>, run: seq<Frame>)
    requires ValidConfig(c) && Tracked(c, s) && s.active.None?
    requires Since(s.heard, s.blocks) == since + [f]
    requires IdleIs(c, since + [f], Kept(s.history, s.historyBytes, s.historyDuration), run, s.candidate)
    requires |run| == c.startFrames
    ensures Tracked(c, Begun(s, f)) && Buffers(c, Begun(s, f))
    ensures Begun(s, f).active.Some? && Begun(s, f).active.value.silence == 0
  {
    hide Duration, LogIs, Chain, MaxNs, CountBefore, Roomy, Settled, Bytes, Time, WithinLimits, AllLoud, KeptFits, ActiveIs;
    hide OneStream, Since, Suffix;
    var k := Kept(s.history, s.historyBytes, s.historyDuration);
    var now := since + [f];
    RunIsOurs(c, s, now, k, run);
    var start := OpeningStep(c, now, k, run, s.candidate);
    LogOpens(c, s.heard, s.events, s.blocks, Begun(s, f).events[|s.events|]);
  }

  lemma RunIsOurs(c: Config, s: State, now: seq<Frame>, k: Kept, run: seq<Frame>)
    requires Tracked(c, s) && s.active.None? && now != [] && run != []
    requires Since(s.heard, s.blocks) == now && Suffix(k.frames, now) && Suffix(run, k.frames)
    ensures Chain(now) && s.stream.Some? && run[0].streamId == s.stream.value.0
  {
    hide Chain, LogIs, Duration;
    CutBounds(c, s.heard, s.events, s.blocks, false);
    SinceSuffix(s.heard, s.blocks);
    SuffixChain(now, s.heard);
    SuffixTransitive(run, k.frames, now);
    SuffixTransitive(run, now, s.heard);
    OneStreamSuffix(run, s.heard, s.stream.value);
  }

  lemma SpeakingKeeps(c: Config, s: State, f: Frame, since: seq<Frame>)
    requires ValidConfig(c) && Tracked(c, s) && s.active.Some?
    requires |f.pcm| <= c.maxBytes && Duration(f) <= MaxNs(c)
    requires Since(s.heard, s.blocks) == since + [f]
    requires Kept(s.history, s.historyBytes, s.historyDuration) == Kept([], 0, 0) && s.candidate == NO_CANDIDATE
    requires Talking(c, since, s.events, s.active.value) && s.active.value.silence < c.endFrames
    ensures Inv(c, Speaking(c, s, f))
  {
    hide Duration, LogIs, Chain, StreamIs, MaxNs, Idle, ActiveIs, ValidUtterance, Above, SpeechEnd, Waiting, Ended;
    var a := s.active.value;
    ActiveSums(c, since, s.events[|s.events| - 1], a);
    CutBounds(c, s.heard, s.events, s.blocks, true);
    BeforeLast(s.heard, Cut(s.blocks), since, f);
    assert s.heard[|s.heard| - 1] == f;
    if a.bytes + |f.pcm| > c.maxBytes {
      CutShort(c, s, f, since, MaxBytes);
    } else if a.duration + Duration(f) > MaxNs(c) {
      CutShort(c, s, f, since, MaxDuration);
    } else {
      var e := s.events[|s.events| - 1];
      var k: nat :| ActiveIs(c, since, e, a, k);
      ExtendStep(c, since, e, a, k, f);
      var b := Extended(c, a, f);
      var s1 := s.(active := Some(b));
      if LimitReached(c, b).Some? {
        ActiveSums(c, since + [f], e, b);
        EndNowKeeps(c, s1, LimitReached(c, b).value);
      } else if b.silence >= c.endFrames {
        EndNowKeeps(c, s1, Silence);
      }
    }
  }

  lemma CutShort(c: Config, s: State, f: Frame, since: seq<Frame>, reason: Reason)
    requires ValidConfig(c) && Tracked(c, s) && s.active.Some? && reason != Silence
    requires |f.pcm| <= c.maxBytes && Duration(f) <= MaxNs(c)
    requires Since(s.heard, s.blocks) == since + [f]
    requires Kept(s.history, s.historyBytes, s.historyDuration) == Kept([], 0, 0) && s.candidate == NO_CANDIDATE
    requires Talking(c, since, s.events, s.active.value)
    requires s.heard != [] && EndedFor(c, s.heard, |s.heard| - 1, s.active.value.frames, reason)
    ensures Inv(c, Idle(c, Ended(s, reason, |s.heard| - 1), f))
  {
    hide EndedFor, Bytes, Time, Duration, LogIs, Chain, StreamIs, MaxNs, Idle, Talking, ValidUtterance, SpeechEnd, Waiting;
    CutBounds(c, s.heard, s.events, s.blocks, true);
    BeforeLast(s.heard, Cut(s.blocks), since, f);
    var upTo := |s.heard| - 1;
    EndKeeps(c, s, reason, upTo, since);
    WaitingForNothing(c, []);
    assert [] + [f] == [f];
    IdleKeeps(c, Ended(s, reason, upTo), f, []);
  }

  lemma BeforeLast(heard: seq<Frame>, cut: nat, since: seq<Frame>, f: Frame)
    requires cut <= |heard| && heard[cut..] == since + [f]
    ensures cut < |heard|
    ensures heard[cut..|heard| - 1] == since && heard[|heard| - 1..] == [f]
  {
    var n := |heard| - 1;
    assert |heard[cut..]| == |since| + 1;
    assert heard[cut..][..|since|] == heard[cut..n];
    assert heard[cut..][|since|] == f;
  }

  /** Every accepted frame keeps the invariant; in particular nothing is raised while it is handled. */
  lemma ProcessKeeps(c: Config, s: State, f: Frame)
    requires ValidConfig(c) && Inv(c, s) && Admissible(c, s, f)
    ensures Process(c, s, f).Some? && Inv(c, Process(c, s, f).value)
  {
    hide Duration, Tracked, MaxNs, Idle, Speaking, Waiting, Talking, Since, ValidFrame;
    NotedKeeps(c, s, f);
    var since := Since(s.heard, s.blocks);
    if s.active.Some? {
      SpeakingKeeps(c, Noted(s, f), f, since);
    } else {
      IdleKeeps(c, Noted(s, f), f, since);
    }
  }

  lemma {:induction false} RunKeeps(c: Config, frames: seq<Frame>)
    requires ValidConfig(c) && Execute(c, frames).Some?
    ensures Inv(c, Execute(c, frames).value)
  {
    hide Inv, Process, Admissible;
    if frames == [] {
      InitInv(c);
    } else {
      var before := frames[..|frames| - 1];
      RunKeeps(c, before);
      ProcessAdmits(c, Execute(c, before).value, frames[|frames| - 1]);
      ProcessKeeps(c, Execute(c, before).value, frames[|frames| - 1]);
    }
  }

  lemma ProcessAdmits(c: Config, s: State, f: Frame)
    ensures Process(c, s, f).Some? <==> Admissible(c, s, f)
  {
  }

  // ---- Whole streams ----

  lemma {:induction false} HearsEverything(c: Config, frames: seq<Frame>)
    requires Execute(c, frames).Some?
    ensures Execute(c, frames).value.heard == frames
  {
    hide Process;
    if frames != [] {
      var before := frames[..|frames| - 1];
      HearsEverything(c, before);
      OneHeard(c, Execute(c, before).value, frames[|frames| - 1]);
    }
  }

  lemma OneHeard(c: Config, s: State, f: Frame)
    requires Process(c, s, f).Some?
    ensures Process(c, s, f).value.heard == s.heard + [f]
  {
    hide Trim, Heeded, SpeechEnd, ValidUtterance, Admissible, CountBefore, Above, Duration, MaxNs;
  }

  /** Nothing but a refused frame is ever raised. Start and end events alternate, and each pair belongs to
      one block of the input: its own contiguous frames, disjoint from and after every earlier block, a
      valid utterance within both limits that opened and ended where the thresholds say, with as much
      pre-roll as its bounds and the utterance before it allow. */
  lemma Segmentation(c: Config, frames: seq<Frame>)
    requires ValidConfig(c) && Execute(c, frames).Some?
    ensures var s := Execute(c, frames).value;
      !s.crashed && LogIs(c, frames, s.events, s.blocks, s.active.Some?)
    ensures var s := Flushed(Execute(c, frames).value);
      !s.crashed && LogIs(c, frames, s.events, s.blocks, false)
  {
    hide LogIs, Chain, StreamIs, Buffers, BelowLimits, Ended, Execute;
    RunKeeps(c, frames);
    HearsEverything(c, frames);
    var s := Execute(c, frames).value;
    if s.active.Some? {
      EndNowKeeps(c, s, StreamEnded);
      EndedHeard(s, StreamEnded);
    }
  }

  /** Which frames a stream accepts, in terms of the frames themselves. */
  lemma AdmitsExactly(c: Config, frames: seq<Frame>, f: Frame)
    requires ValidConfig(c) && Execute(c, frames).Some?
    ensures Execute(c, frames + [f]).Some? <==>
      && 8_000 <= f.format.sampleRate <= 192_000 && 1 <= f.format.channels <= 8
      && f.pcm != [] && |f.pcm| % (2 * f.format.channels) == 0
      && |f.pcm| <= c.maxBytes && Duration(f) <= c.maxDurationMs * 1_000_000
      && (frames != [] ==>
            var last := frames[|frames| - 1];
            && f.streamId == last.streamId && f.format == last.format
            && f.sequence > last.sequence && f.capturedAt >= last.capturedAt + Duration(last))
  {
    hide Duration, Process, LogIs, Chain, Buffers, BelowLimits, OneStream;
    RunKeeps(c, frames);
    HearsEverything(c, frames);
    assert (frames + [f])[..|frames|] == frames;
    ProcessAdmits(c, Execute(c, frames).value, f);
  }

  lemma EndedHeard(s: State, reason: Reason)
    ensures Ended(s, reason, |s.heard|).heard == s.heard
    ensures Ended(s, reason, |s.heard|).active.None? || Ended(s, reason, |s.heard|).crashed
  {
    hide SpeechEnd, ValidUtterance;
  }

  /** What a caller sees: starts and ends alternate, and an utterance is open after an odd number of them. */
  lemma EventsAlternate(c: Config, frames: seq<Frame>)
    requires ValidConfig(c) && Execute(c, frames).Some?
    ensures var s := Execute(c, frames).value;
      && (s.active.Some? <==> |s.events| % 2 == 1)
      && forall i | 0 <= i < |s.events| :: s.events[i].SpeechStarted? <==> i % 2 == 0
  {
    hide Execute, Inv, LogIs;
    RunKeeps(c, frames);
    var s := Execute(c, frames).value;
    OpenIsStart(c, s);
    LogAlternates(c, s.heard, s.events, s.blocks, s.active.Some?);
  }

  lemma OpenIsStart(c: Config, s: State)
    requires Inv(c, s)
    ensures LogIs(c, s.heard, s.events, s.blocks, s.active.Some?)
    ensures s.active.Some? ==> s.events != [] && s.events[|s.events| - 1].SpeechStarted?
  {
    hide Chain, StreamIs, BelowLimits, Bytes, Time, MaxNs, Suffix, QuietTail, Loud, LogIs, Since, Waiting;
    if s.active.Some? {
      var k: nat :| ActiveIs(c, Since(s.heard, s.blocks), s.events[|s.events| - 1], s.active.value, k);
    }
  }

  lemma LogAlternates(c: Config, heard: seq<Frame>, events: seq<Event>, blocks: seq<Block>, open: bool)
    requires LogIs(c, heard, events, blocks, open)
    requires open ==> events != [] && events[|events| - 1].SpeechStarted?
    ensures open <==> |events| % 2 == 1
    ensures forall i | 0 <= i < |events| :: events[i].SpeechStarted? <==> i % 2 == 0
  {
    hide Pair, InOrder;
    forall i | 0 <= i < |events| ensures events[i].SpeechStarted? <==> i % 2 == 0 {
      var h := i / 2;
      if h < |blocks| {
        PairKinds(c, heard, events[2 * h], events[2 * h + 1], blocks[h], Floor(blocks, h));
      }
    }
  }

  lemma PairKinds(c: Config, heard: seq<Frame>, e0: Event, e1: Event, b: Block, lo: int)
    requires Pair(c, heard, e0, e1, b, lo)
    ensures e0.SpeechStarted? && e1.SpeechEnded?
  {
    hide Said, FullFrom;
  }

  lemma BlockStart(c: Config, heard: seq<Frame>, e0: Event, e1: Event, b: Block, lo: int) returns (at: nat)
    requires Pair(c, heard, e0, e1, b, lo)
    ensures b.from <= at < b.to <= |heard| && e0.id.startSequence == heard[at].sequence && e0.id == e1.id
  {
    hide ValidUtterance, WithinLimits, EndingIs, Loud;
    var k: nat :| Said(c, e0, e1, k);
    at := b.from + k;
    assert e1.utterance.frames[k] == heard[at];
  }

  /** Utterance identities never repeat: the sequence numbers where speech starts strictly increase. */
  lemma StartsIncrease(c: Config, frames: seq<Frame>, i: nat, j: nat)
    requires ValidConfig(c) && Execute(c, frames).Some?
    requires i < j < |Flushed(Execute(c, frames).value).blocks|
    ensures var events := Flushed(Execute(c, frames).value).events;
      && 2 * j + 1 < |events| && events[2 * i].id == events[2 * i + 1].id
      && events[2 * i].id.startSequence < events[2 * j].id.startSequence
  {
    hide Pair, Execute, Duration, Ended, Tracked, Buffers;
    Segmentation(c, frames);
    StreamIsChain(c, frames);
    var s := Flushed(Execute(c, frames).value);
    var x := BlockStart(c, frames, s.events[2 * i], s.events[2 * i + 1], s.blocks[i], Floor(s.blocks, i));
    var y := BlockStart(c, frames, s.events[2 * j], s.events[2 * j + 1], s.blocks[j], Floor(s.blocks, j));
    assert Precedes(frames[x], frames[y]);
  }

  lemma StreamIsChain(c: Config, frames: seq<Frame>)
    requires ValidConfig(c) && Execute(c, frames).Some?
    ensures Chain(frames)
  {
    hide Chain, LogIs, StreamIs, Buffers, BelowLimits;
    RunKeeps(c, frames);
    HearsEverything(c, frames);
  }

  /** `buffered_bytes`. */
  function Buffered(s: State): int {
    if s.active.Some? then s.active.value.bytes else s.historyBytes
  }

  function Retained(s: State): seq<Frame> {
    if s.active.Some? then s.active.value.frames else s.history
  }

  /** What is retained is the end of the input, its size is counted exactly, and it is bounded. */
  lemma Bounded(c: Config, frames: seq<Frame>)
    requires ValidConfig(c) && Execute(c, frames).Some?
    ensures var s := Execute(c, frames).value;
      && Suffix(Retained(s), frames)
      && Buffered(s) == Bytes(Retained(s)) <= c.maxBytes && Time(Retained(s)) <= MaxNs(c)
      && (s.active.None? ==> |s.history| <= c.preRollFrames + c.startFrames)
      && (s.active.Some? ==> s.history == [])
  {
    hide Chain, LogIs, StreamIs, BelowLimits, Execute, Bytes, Time, MaxNs, CandidateIs, Roomy, Opening, QuietTail;
    RunKeeps(c, frames);
    HearsEverything(c, frames);
    var s := Execute(c, frames).value;
    CutBounds(c, s.heard, s.events, s.blocks, s.active.Some?);
    SinceSuffix(s.heard, s.blocks);
    SuffixTransitive(Retained(s), Since(s.heard, s.blocks), s.heard);
  }

  /** Speech is never missed: while the detector waits, the latest `startFrames` frames since the last
      utterance are not all loud, provided such stretches fit the limits. */
  lemma SpeechIsNoticed(c: Config, frames: seq<Frame>)
    requires ValidConfig(c) && Execute(c, frames).Some? && Execute(c, frames).value.active.None?
    requires Roomy(c, frames)
    requires c.startFrames <= |Since(frames, Execute(c, frames).value.blocks)|
    ensures !AllLoud(c, Last(Since(frames, Execute(c, frames).value.blocks), c.startFrames))
  {
    hide Chain, LogIs, StreamIs, BelowLimits, Execute, Bytes, Time, MaxNs, CandidateIs, Roomy, Loud, Since, Suffix, Exact, KeptFits;
    RunKeeps(c, frames);
    HearsEverything(c, frames);
    var s := Execute(c, frames).value;
    CutBounds(c, s.heard, s.events, s.blocks, s.active.Some?);
    SinceSuffix(s.heard, s.blocks);
    var since := Since(frames, s.blocks);
    RoomySuffix(c, since, frames);
    var run := Last(s.history, s.candidate.count);
    IdleParts(c, since, Kept(s.history, s.historyBytes, s.historyDuration), run, s.candidate);
    var tail := Last(since, c.startFrames);
    assert tail[c.startFrames - |run| - 1] == since[|since| - |run| - 1];
  }

  /** Silence is never missed: while an utterance goes on, its latest `endFrames` frames are not all quiet. */
  lemma SilenceIsNoticed(c: Config, frames: seq<Frame>)
    requires ValidConfig(c) && Execute(c, frames).Some? && Execute(c, frames).value.active.Some?
    ensures var fs := Execute(c, frames).value.active.value.frames;
      exists i :: 0 <= i < |fs| && |fs| - c.endFrames <= i && !Quiet(c, fs[i])
  {
    hide Chain, LogIs, StreamIs, Execute, Bytes, Time, MaxNs, Quiet, Since, Suffix;
    RunKeeps(c, frames);
    var s := Execute(c, frames).value;
    var a := s.active.value;
    var k: nat :| ActiveIs(c, Since(s.heard, s.blocks), s.events[|s.events| - 1], a, k);
    LoudIsNotQuiet(c, a.frames[k]);
    assert a.silence < |a.frames|;
    assert !Quiet(c, a.frames[|a.frames| - a.silence - 1]);
  }
}
