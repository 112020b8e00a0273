/** What every run of the detector keeps, and the segmentation it therefore produces. */
module VadProofs {
  import opened Text
  import opened VadSpec

  // ---- Frames in order ----

  predicate Precedes(f: Frame, g: Frame) {
    f.streamId == g.streamId && f.format == g.format && Follows(f, g)
  }

  predicate Chain(fs: seq<Frame>) {
    forall i, j | 0 <= i < j < |fs| :: Precedes(fs[i], fs[j])
  }

  predicate Suffix(a: seq<Frame>, b: seq<Frame>) {
    |a| <= |b| && a == b[|b| - |a|..]
  }

  function Bytes(fs: seq<Frame>): nat {
    if fs == [] then 0 else |fs[0].pcm| + Bytes(fs[1..])
  }

  function Time(fs: seq<Frame>): nat {
    if fs == [] then 0 else Duration(fs[0]) + Time(fs[1..])
  }

  lemma {:induction false} SumsAppend(fs: seq<Frame>, f: Frame)
    ensures Bytes(fs + [f]) == Bytes(fs) + |f.pcm|
    ensures Time(fs + [f]) == Time(fs) + Duration(f)
  {
    hide Duration;
    if fs == [] {
      assert fs + [f] == [f];
    } else {
      assert (fs + [f])[1..] == fs[1..] + [f];
      SumsAppend(fs[1..], f);
    }
  }

  lemma ChainAppend(fs: seq<Frame>, f: Frame)
    requires Chain(fs)
    requires fs != [] ==> Precedes(fs[|fs| - 1], f)
    ensures Chain(fs + [f])
  {
    hide Duration;
    var n := |fs|;
    forall i | 0 <= i < n ensures Precedes(fs[i], f) {
      if i < n - 1 {
        assert Precedes(fs[i], fs[n - 1]);
      }
    }
  }

  lemma SuffixAppend(a: seq<Frame>, b: seq<Frame>, f: Frame)
    requires Suffix(a, b)
    ensures Suffix(a + [f], b + [f])
  {
    var k := |b| - |a|;
    assert (b + [f])[k..] == b[k..] + [f];
  }

  lemma SuffixTransitive(a: seq<Frame>, b: seq<Frame>, c: seq<Frame>)
    requires Suffix(a, b) && Suffix(b, c)
    ensures Suffix(a, c)
  {
    var k := |c| - |b|;
    assert c[k..][|b| - |a|..] == c[|c| - |a|..];
  }

  lemma SuffixLength(a: seq<Frame>, b: seq<Frame>)
    requires Suffix(a, b)
    ensures |a| <= |b|
  {
  }

  lemma SuffixChain(a: seq<Frame>, b: seq<Frame>)
    requires Suffix(a, b) && Chain(b)
    ensures Chain(a)
  {
    hide Precedes;
    var k := |b| - |a|;
    forall i, j | 0 <= i < j < |a| ensures Precedes(a[i], a[j]) {
      assert a[i] == b[k + i] && a[j] == b[k + j];
    }
  }

  // ---- Loud and quiet frames ----

  predicate Loud(c: Config, f: Frame) {
    Above(f, c.startThreshold)
  }

  predicate Quiet(c: Config, f: Frame) {
    !Above(f, c.endThreshold)
  }

  /** Hysteresis: a frame loud enough to start speech is never one that ends it. */
  lemma LoudIsNotQuiet(c: Config, f: Frame)
    requires ValidConfig(c) && Loud(c, f)
    ensures !Quiet(c, f)
  {
    hide SquareSum;
    var n := |f.pcm| / 2;
    var lo, hi := c.endThreshold, c.startThreshold;
    assert lo * lo <= hi * hi by {
      assert lo * lo <= lo * hi <= hi * hi;
    }
    ScaleMonotone(lo * lo, hi * hi, n);
  }

  lemma ScaleMonotone(a: nat, b: nat, n: nat)
    requires a <= b
    ensures a * n <= b * n
  {
  }

  predicate WithinLimits(c: Config, fs: seq<Frame>) {
    Bytes(fs) <= c.maxBytes && Time(fs) <= MaxNs(c)
  }

  /** The frames fit the limits wherever speech might be about to start. */
  predicate Roomy(c: Config, fs: seq<Frame>) {
    forall a, b | 0 <= a <= b <= |fs| && b - a <= c.startFrames :: WithinLimits(c, fs[a..b])
  }

  lemma RoomyPrefix(c: Config, fs: seq<Frame>, f: Frame)
    requires Roomy(c, fs + [f])
    ensures Roomy(c, fs)
  {
    hide WithinLimits;
    forall a, b | 0 <= a <= b <= |fs| && b - a <= c.startFrames ensures WithinLimits(c, fs[a..b]) {
      assert (fs + [f])[a..b] == fs[a..b];
    }
  }

  lemma RoomySuffix(c: Config, a: seq<Frame>, b: seq<Frame>)
    requires Roomy(c, b) && Suffix(a, b)
    ensures Roomy(c, a)
  {
    hide WithinLimits;
    var k := |b| - |a|;
    forall i, j | 0 <= i <= j <= |a| && j - i <= c.startFrames ensures WithinLimits(c, a[i..j]) {
      assert b[k + i..k + j] == a[i..j];
    }
  }

  /** The frames may be remembered while nobody speaks. */
  predicate MayRemember(c: Config, fs: seq<Frame>) {
    Fits(c, |fs|, Bytes(fs), Time(fs))
  }

  /** From `from` on `n` frames were remembered, and no more could be: they start at `lo`, or one frame more
      would not have fitted. */
  predicate FullFrom(c: Config, fs: seq<Frame>, lo: int, from: int, n: int) {
    from == lo || (0 <= from - 1 <= from + n <= |fs| && !MayRemember(c, fs[from - 1..from + n]))
  }

  function Tail(fs: seq<Frame>, n: nat): seq<Frame> {
    if n <= |fs| then fs[|fs| - n..] else fs
  }

  /** The last `n` frames are as many as may be remembered. */
  predicate TailFull(c: Config, fs: seq<Frame>, n: nat) {
    n >= |fs| || !MayRemember(c, Tail(fs, n + 1))
  }

  lemma TailAppend(fs: seq<Frame>, f: Frame, n: nat)
    requires n <= |fs|
    ensures Tail(fs + [f], n + 1) == Tail(fs, n) + [f]
  {
  }

  lemma TailOfSuffix(a: seq<Frame>, b: seq<Frame>, n: nat)
    requires Suffix(a, b) && n <= |a|
    ensures Tail(a, n) == Tail(b, n)
  {
    var k := |b| - |a|;
    assert b[k..][|a| - n..] == b[|b| - n..];
  }

  lemma TailIsFull(c: Config, fs: seq<Frame>, n: nat)
    requires TailFull(c, fs, n) && n <= |fs|
    ensures FullFrom(c, fs, 0, |fs| - n, n)
  {
    hide MayRemember;
    var d := |fs| - n;
    if d > 0 {
      assert fs[d - 1..d + n] == Tail(fs, n + 1);
    }
  }

  lemma FullAppend(c: Config, fs: seq<Frame>, f: Frame, lo: int, from: int, n: int)
    requires FullFrom(c, fs, lo, from, n)
    ensures FullFrom(c, fs + [f], lo, from, n)
  {
    hide MayRemember;
    if from != lo {
      assert (fs + [f])[from - 1..from + n] == fs[from - 1..from + n];
    }
  }

  lemma FullShifts(c: Config, fs: seq<Frame>, lo: nat, hi: nat, from: int, n: int)
    requires lo <= hi <= |fs| && FullFrom(c, fs[lo..hi], 0, from, n)
    ensures FullFrom(c, fs, lo, lo + from, n)
  {
    hide MayRemember;
    if from != 0 {
      SliceOfSlice(fs, lo, hi, from - 1, from + n);
    }
  }

  lemma SliceOfSlice(fs: seq<Frame>, lo: nat, hi: nat, a: nat, b: nat)
    requires lo <= hi <= |fs| && a <= b <= hi - lo
    ensures fs[lo..hi][a..b] == fs[lo + a..lo + b]
  {
    var part := fs[lo..hi];
    forall i | 0 <= i < b - a ensures part[a..b][i] == fs[lo + a..lo + b][i] {
      assert part[a + i] == fs[lo + (a + i)];
    }
  }

  // ---- Idle ----

  predicate AllLoud(c: Config, fs: seq<Frame>) {
    forall i | 0 <= i < |fs| :: Loud(c, fs[i])
  }

  function StartMark(run: seq<Frame>): Option<Mark> {
    if run == [] then None else Some(Mark(run[0].capturedAt, run[0].sequence))
  }

  /** `run` is the stretch of loud frames the candidate counters describe. */
  predicate CandidateIs(c: Config, run: seq<Frame>, cand: Candidate) {
    && cand == Candidate(|run|, Bytes(run), Time(run), StartMark(run))
    && WithinLimits(c, run) && AllLoud(c, run)
  }

  function NextRun(c: Config, run: seq<Frame>, f: Frame): seq<Frame> {
    if !Loud(c, f) then []
    else if Bytes(run) + |f.pcm| > c.maxBytes || Time(run) + Duration(f) > MaxNs(c) then [f]
    else run + [f]
  }

  lemma HeededKeeps(c: Config, run: seq<Frame>, cand: Candidate, f: Frame)
    requires CandidateIs(c, run, cand)
    requires |f.pcm| <= c.maxBytes && Duration(f) <= MaxNs(c)
    ensures CandidateIs(c, NextRun(c, run, f), Heeded(c, cand, f))
  {
    hide Duration, Above, MaxNs, Bytes, Time;
    SumsAppend(run, f);
    SumsAppend([], f);
    assert [] + [f] == [f];
    EmptySums();
  }

  lemma EmptySums()
    ensures Bytes([]) == 0 && Time([]) == 0
  {
  }

  lemma DropFirst(fs: seq<Frame>, run: seq<Frame>)
    requires Suffix(run, fs) && |run| < |fs|
    ensures Suffix(run, fs[1..]) && Suffix(fs[1..], fs)
    ensures Bytes(fs) == |fs[0].pcm| + Bytes(fs[1..]) && Time(fs) == Duration(fs[0]) + Time(fs[1..])
  {
    hide Duration;
    var n := |fs| - |run|;
    assert fs[1..][n - 1..] == fs[n..];
  }

  predicate Exact(k: Kept) {
    k.bytes == Bytes(k.frames) && k.duration == Time(k.frames)
  }

  predicate KeptFits(c: Config, k: Kept) {
    Fits(c, |k.frames|, k.bytes, k.duration)
  }

  lemma NothingDropped(c: Config, fs: seq<Frame>)
    ensures TailFull(c, fs, |fs|)
  {
  }

  lemma SuffixSelf(fs: seq<Frame>)
    ensures Suffix(fs, fs)
  {
  }

  lemma WholeFits(c: Config, k: Kept, run: seq<Frame>)
    requires Exact(k) && Suffix(run, k.frames)
    requires WithinLimits(c, run) && |run| <= c.preRollFrames + c.startFrames
    ensures KeptFits(c, k) || |run| < |k.frames|
  {
    hide Bytes, Time, MaxNs;
    assert |run| == |k.frames| ==> run == k.frames;
  }

  lemma FullTail(c: Config, k: Kept, n: nat)
    requires Exact(k) && !KeptFits(c, k) && n < |k.frames| && Suffix(k.frames[1..], k.frames)
    requires TailFull(c, k.frames[1..], n)
    ensures TailFull(c, k.frames, n)
  {
    hide Bytes, Time, MaxNs, Suffix;
    if n == |k.frames| - 1 {
      assert Tail(k.frames, n + 1) == k.frames;
    } else {
      TailOfSuffix(k.frames[1..], k.frames, n + 1);
    }
  }

  /** Trimming never cuts into a stretch that fits by itself, and ends with totals that fit. */
  lemma {:induction false} TrimKeeps(c: Config, k: Kept, run: seq<Frame>)
    requires Exact(k) && Suffix(run, k.frames)
    requires WithinLimits(c, run) && |run| <= c.preRollFrames + c.startFrames
    ensures Exact(Trim(c, k)) && KeptFits(c, Trim(c, k))
    ensures Suffix(run, Trim(c, k).frames) && Suffix(Trim(c, k).frames, k.frames)
    ensures TailFull(c, k.frames, |Trim(c, k).frames|)
    decreases |k.frames|
  {
    hide Duration, MaxNs, Bytes, Time, Suffix, TailFull;
    WholeFits(c, k, run);
    if KeptFits(c, k) {
      SuffixSelf(k.frames);
      NothingDropped(c, k.frames);
    } else {
      var rest := Kept(k.frames[1..], k.bytes - |k.frames[0].pcm|, k.duration - Duration(k.frames[0]));
      DropFirst(k.frames, run);
      TrimKeeps(c, rest, run);
      SuffixTransitive(Trim(c, rest).frames, rest.frames, k.frames);
      FullTail(c, k, |Trim(c, rest).frames|);
    }
  }

  /** The frames remembered while nobody speaks: the latest ones since the last utterance, totals exact,
      within every bound, the candidate being the end of them. */
  predicate IdleIs(c: Config, since: seq<Frame>, k: Kept, run: seq<Frame>, cand: Candidate) {
    && Exact(k) && KeptFits(c, k)
    && Suffix(k.frames, since) && Suffix(run, k.frames)
    && CandidateIs(c, run, cand) && |run| <= c.startFrames
    && (Roomy(c, since) ==> Settled(c, since, |run|))
    && TailFull(c, since, |k.frames|)
  }

  /** Nothing longer than the last `n` frames is an unbroken loud stretch. */
  predicate Settled(c: Config, since: seq<Frame>, n: nat) {
    n <= |since| && (n < |since| ==> !Loud(c, since[|since| - n - 1]))
  }

  lemma SettledStep(c: Config, since: seq<Frame>, run: seq<Frame>, f: Frame)
    requires Suffix(run, since) && |run| < c.startFrames
    requires Roomy(c, since) ==> Settled(c, since, |run|)
    ensures Roomy(c, since + [f]) ==> Settled(c, since + [f], |NextRun(c, run, f)|)
  {
    hide Loud, Bytes, Time, Duration, MaxNs;
    if Roomy(c, since + [f]) {
      RoomyPrefix(c, since, f);
      SuffixAppend(run, since, f);
      var n := |since| + 1;
      assert (since + [f])[n - |run| - 1..n] == run + [f];
      assert WithinLimits(c, run + [f]);
      SumsAppend(run, f);
    }
  }

  lemma IdleStep(c: Config, since: seq<Frame>, k: Kept, run: seq<Frame>, cand: Candidate, f: Frame)
    requires ValidConfig(c)
    requires IdleIs(c, since, k, run, cand) && |run| < c.startFrames
    requires |f.pcm| <= c.maxBytes && Duration(f) <= MaxNs(c)
    ensures IdleIs(c, since + [f], Trim(c, Kept(k.frames + [f], k.bytes + |f.pcm|, k.duration + Duration(f))),
                   NextRun(c, run, f), Heeded(c, cand, f))
  {
    hide Duration, Bytes, Time, Roomy, Settled, Trim, Heeded, Loud, MaxNs, AllLoud, TailFull;
    var k1 := Kept(k.frames + [f], k.bytes + |f.pcm|, k.duration + Duration(f));
    var next := NextRun(c, run, f);
    SumsAppend(k.frames, f);
    HeededKeeps(c, run, cand, f);
    SuffixAppend(k.frames, since, f);
    assert Suffix(next, k1.frames) by {
      SuffixAppend(run, k.frames, f);
      LastIsSuffix(k.frames, f);
    }
    TrimKeeps(c, k1, next);
    SuffixTransitive(Trim(c, k1).frames, k1.frames, since + [f]);
    SuffixTransitive(run, k.frames, since);
    SettledStep(c, since, run, f);
    FullStep(c, since, k.frames, f, Trim(c, k1).frames);
  }

  /** What was remembered before, and now: as much as fits. */
  lemma FullStep(c: Config, since: seq<Frame>, before: seq<Frame>, f: Frame, kept: seq<Frame>)
    requires Suffix(before, since) && Suffix(kept, before + [f])
    requires TailFull(c, since, |before|) && TailFull(c, before + [f], |kept|)
    ensures TailFull(c, since + [f], |kept|)
  {
    hide MayRemember, Tail, Suffix;
    var n := |kept|;
    SuffixAppend(before, since, f);
    SuffixLength(before, since);
    SuffixLength(kept, before + [f]);
    if n < |before| + 1 {
      TailOfSuffix(before + [f], since + [f], n + 1);
    } else if n < |since| + 1 {
      TailAppend(since, f, n);
      MoreNeverFits(c, Tail(since, n), f);
    }
  }

  lemma MoreNeverFits(c: Config, fs: seq<Frame>, f: Frame)
    requires !MayRemember(c, fs)
    ensures !MayRemember(c, fs + [f])
  {
    hide Bytes, Time, MaxNs, Duration;
    SumsAppend(fs, f);
  }

  lemma IdleParts(c: Config, since: seq<Frame>, k: Kept, run: seq<Frame>, cand: Candidate)
    requires IdleIs(c, since, k, run, cand)
    ensures KeptFits(c, k) && Suffix(run, k.frames) && cand.count == |run| <= c.startFrames
  {
  }

  lemma LastIsSuffix(fs: seq<Frame>, f: Frame)
    ensures Suffix([f], fs + [f]) && Suffix([], fs + [f])
  {
  }

  // ---- Speaking ----

  /** Speech began at `frames[k]`: so many frames of pre-roll, then a stretch of loud ones. */
  predicate Opening(c: Config, e: Event, id: UtteranceId, startedAt: nat, frames: seq<Frame>, k: nat) {
    && k <= c.preRollFrames && k + c.startFrames <= |frames| && c.startFrames >= 1
    && id == UtteranceId(frames[k].streamId, frames[k].sequence) && startedAt == frames[k].capturedAt
    && e == SpeechStarted(id, startedAt, frames[k + c.startFrames - 1].sequence, k)
    && (forall i | k <= i < k + c.startFrames :: Loud(c, frames[i]))
  }

  /** The last `n` frames, and no more, are an unbroken quiet stretch that began at `at`. */
  predicate QuietTail(c: Config, frames: seq<Frame>, n: nat, at: Option<nat>) {
    && n <= |frames|
    && (forall i | |frames| - n <= i < |frames| :: Quiet(c, frames[i]))
    && (n < |frames| ==> !Quiet(c, frames[|frames| - n - 1]))
    && at == (if n == 0 then None else Some(frames[|frames| - n].capturedAt))
  }

  predicate ActiveIs(c: Config, since: seq<Frame>, e: Event, a: Active, k: nat) {
    && Suffix(a.frames, since)
    && a.bytes == Bytes(a.frames) <= c.maxBytes && a.duration == Time(a.frames) <= MaxNs(c)
    && Opening(c, e, a.id, a.startedAt, a.frames, k)
    && QuietTail(c, a.frames, a.silence, a.silenceAt)
    && FullFrom(c, since, 0, |since| - |a.frames|, k + c.startFrames)
  }

  lemma {:induction false} CountBeforeIs(fs: seq<Frame>, k: nat)
    requires Chain(fs) && k < |fs|
    ensures CountBefore(fs, fs[k].sequence) == k
    decreases k
  {
    hide Duration;
    if k == 0 {
      NoneBefore(fs, fs[0].sequence);
    } else {
      assert Precedes(fs[0], fs[k]);
      SuffixChain(fs[1..], fs);
      CountBeforeIs(fs[1..], k - 1);
    }
  }

  lemma {:induction false} NoneBefore(fs: seq<Frame>, sequence: nat)
    requires Chain(fs) && (fs != [] ==> sequence <= fs[0].sequence)
    ensures CountBefore(fs, sequence) == 0
  {
    hide Duration;
    if fs != [] {
      SuffixChain(fs[1..], fs);
      assert |fs| > 1 ==> Precedes(fs[0], fs[1]);
      NoneBefore(fs[1..], sequence);
    }
  }

  function Opened(k: Kept, id: UtteranceId, at: nat): Active {
    Active(k.frames, k.bytes, k.duration, id, at, 0, None)
  }

  /** A full candidate opens an utterance whose pre-roll is what was remembered before it. */
  lemma OpeningStep(c: Config, since: seq<Frame>, k: Kept, run: seq<Frame>, cand: Candidate)
    returns (start: nat)
    requires ValidConfig(c) && Chain(since)
    requires IdleIs(c, since, k, run, cand) && |run| == c.startFrames
    ensures start < |k.frames| && run[0] == k.frames[start]
    ensures ActiveIs(c, since,
              SpeechStarted(UtteranceId(run[0].streamId, run[0].sequence), run[0].capturedAt,
                            since[|since| - 1].sequence, CountBefore(k.frames, run[0].sequence)),
              Opened(k, UtteranceId(run[0].streamId, run[0].sequence), run[0].capturedAt), start)
  {
    hide Duration, Bytes, Time, Roomy, Settled, Loud, Quiet, MaxNs, CountBefore, Chain, TailFull, FullFrom;
    var frames := k.frames;
    start := |frames| - |run|;
    TailIsFull(c, since, |frames|);
    SuffixChain(frames, since);
    CountBeforeIs(frames, start);
    assert forall i | start <= i < |frames| :: frames[i] == run[i - start];
    LoudIsNotQuiet(c, frames[|frames| - 1]);
    assert frames[|frames| - 1] == since[|since| - 1];
  }

  lemma OpeningAppend(c: Config, e: Event, id: UtteranceId, startedAt: nat, frames: seq<Frame>, k: nat, f: Frame)
    requires Opening(c, e, id, startedAt, frames, k)
    ensures Opening(c, e, id, startedAt, frames + [f], k)
  {
    hide Loud;
    var more := frames + [f];
    assert forall i | 0 <= i < |frames| :: more[i] == frames[i];
  }

  lemma QuietAppend(c: Config, frames: seq<Frame>, n: nat, at: Option<nat>, f: Frame)
    requires QuietTail(c, frames, n, at)
    ensures Quiet(c, f) ==> QuietTail(c, frames + [f], n + 1, if n == 0 then Some(f.capturedAt) else at)
    ensures !Quiet(c, f) ==> QuietTail(c, frames + [f], 0, None)
  {
    hide Quiet;
    var more := frames + [f];
    assert more[|frames|] == f;
    assert forall i | 0 <= i < |frames| :: more[i] == frames[i];
  }

  lemma ExtendStep(c: Config, since: seq<Frame>, e: Event, a: Active, k: nat, f: Frame)
    requires ActiveIs(c, since, e, a, k)
    requires a.bytes + |f.pcm| <= c.maxBytes && a.duration + Duration(f) <= MaxNs(c)
    ensures ActiveIs(c, since + [f], e, Extended(c, a, f), k)
  {
    hide Duration, Bytes, Time, Above, MaxNs, Opening, QuietTail, FullFrom;
    FullAppend(c, since, f, 0, |since| - |a.frames|, k + c.startFrames);
    SuffixAppend(a.frames, since, f);
    SumsAppend(a.frames, f);
    OpeningAppend(c, e, a.id, a.startedAt, a.frames, k, f);
    QuietAppend(c, a.frames, a.silence, a.silenceAt, f);
  }

  ghost predicate IsActive(c: Config, since: seq<Frame>, e: Event, a: Active) {
    exists k: nat :: ActiveIs(c, since, e, a, k)
  }

  lemma ActiveHasFrames(c: Config, since: seq<Frame>, e: Event, a: Active, k: nat)
    requires ActiveIs(c, since, e, a, k)
    ensures a.frames != [] && since != []
  {
  }

  lemma ActiveSums(c: Config, since: seq<Frame>, e: Event, a: Active)
    requires IsActive(c, since, e, a)
    ensures a.bytes == Bytes(a.frames) && a.duration == Time(a.frames)
  {
    hide Bytes, Time, MaxNs, Opening, QuietTail, Suffix;
  }

  // ---- Finished utterances ----

  /** Why the speech end is where it is. */
  predicate EndingIs(c: Config, u: Utterance) {
    if u.reason == Silence
    then QuietTail(c, u.frames, c.endFrames, Some(u.endedAt))
    else u.frames != [] && u.endedAt == End(u.frames[|u.frames| - 1])
  }

  predicate Said(c: Config, e0: Event, e1: Event, k: nat) {
    && e1.SpeechEnded?
    && var u := e1.utterance;
       && e1.id == u.id && e1.at == u.endedAt && e1.reason == u.reason
       && ValidUtterance(u) && WithinLimits(c, u.frames)
       && Opening(c, e0, u.id, u.startedAt, u.frames, k)
       && EndingIs(c, u)
  }

  /** A limit ended the utterance only because it was reached, or because the next frame would pass it. */
  predicate EndedFor(c: Config, heard: seq<Frame>, to: nat, frames: seq<Frame>, reason: Reason) {
    match reason
    case MaxBytes =>
      Bytes(frames) >= c.maxBytes || (to < |heard| && Bytes(frames) + |heard[to].pcm| > c.maxBytes)
    case MaxDuration =>
      Time(frames) >= MaxNs(c) || (to < |heard| && Time(frames) + Duration(heard[to]) > MaxNs(c))
    case _ => true
  }

  /** The two events of one utterance; `lo` is where the utterance before it ended. */
  ghost predicate Pair(c: Config, heard: seq<Frame>, e0: Event, e1: Event, b: Block, lo: int) {
    && 0 <= b.from < b.to <= |heard|
    && e0.SpeechStarted? && FullFrom(c, heard, lo, b.from, e0.preRoll + c.startFrames)
    && e1.SpeechEnded? && e1.utterance.frames == heard[b.from..b.to]
    && EndedFor(c, heard, b.to, e1.utterance.frames, e1.reason)
    && exists k: nat :: Said(c, e0, e1, k)
  }

  function Sealed(a: Active, stream: (int, Format), reason: Reason): Utterance {
    Utterance(a.id, stream.0, stream.1, a.frames, a.startedAt, SpeechEnd(a, reason), reason)
  }

  lemma EndsInside(c: Config, frames: seq<Frame>, k: nat, n: nat, at: Option<nat>)
    requires Chain(frames) && QuietTail(c, frames, n, at) && k < |frames| && !Quiet(c, frames[k])
    ensures k < |frames| - n
    ensures frames[0].capturedAt <= frames[k].capturedAt <= End(frames[|frames| - 1])
    ensures n > 0 ==> frames[k].capturedAt <= frames[|frames| - n].capturedAt <= End(frames[|frames| - 1])
  {
    hide Quiet, Duration;
    var last := |frames| - 1;
    assert k > 0 ==> Precedes(frames[0], frames[k]);
    assert k < last ==> Precedes(frames[k], frames[last]);
    if n > 0 {
      var q := |frames| - n;
      assert Precedes(frames[k], frames[q]);
      assert q < last ==> Precedes(frames[q], frames[last]);
    }
  }

  predicate OneStream(fs: seq<Frame>, stream: (int, Format)) {
    forall i | 0 <= i < |fs| :: fs[i].streamId == stream.0 && fs[i].format == stream.1
  }

  predicate Adjacent(fs: seq<Frame>) {
    forall i | 0 < i < |fs| :: Follows(fs[i - 1], fs[i])
  }

  lemma ChainIsAdjacent(fs: seq<Frame>)
    requires Chain(fs)
    ensures Adjacent(fs)
  {
    hide Follows;
    forall i | 0 < i < |fs| ensures Follows(fs[i - 1], fs[i]) {
      assert Precedes(fs[i - 1], fs[i]);
    }
  }

  lemma OneStreamSuffix(a: seq<Frame>, b: seq<Frame>, stream: (int, Format))
    requires Suffix(a, b) && OneStream(b, stream)
    ensures OneStream(a, stream)
  {
    var d := |b| - |a|;
    assert forall i | 0 <= i < |a| :: a[i] == b[d + i];
  }

  lemma SealedIsValid(c: Config, e: Event, a: Active, k: nat, stream: (int, Format), reason: Reason)
    requires ValidConfig(c) && Chain(a.frames) && OneStream(a.frames, stream)
    requires Opening(c, e, a.id, a.startedAt, a.frames, k)
    requires QuietTail(c, a.frames, a.silence, a.silenceAt)
    requires reason == Silence ==> a.silence > 0
    ensures ValidUtterance(Sealed(a, stream, reason))
  {
    hide Quiet, Loud, Duration, Chain;
    var frames := a.frames;
    LoudIsNotQuiet(c, frames[k]);
    EndsInside(c, frames, k, a.silence, a.silenceAt);
    ChainIsAdjacent(frames);
  }

  lemma SealStep(c: Config, since: seq<Frame>, e: Event, a: Active, k: nat, stream: (int, Format), reason: Reason)
    requires ValidConfig(c) && Chain(since) && ActiveIs(c, since, e, a, k)
    requires OneStream(since, stream)
    requires reason == Silence ==> a.silence == c.endFrames
    ensures a.frames != [] && ValidUtterance(Sealed(a, stream, reason))
    ensures Said(c, e, SpeechEnded(a.id, SpeechEnd(a, reason), reason, Sealed(a, stream, reason)), k)
  {
    hide Quiet, Loud, Duration, MaxNs, Bytes, Time, Chain, OneStream, ValidUtterance;
    SuffixChain(a.frames, since);
    OneStreamSuffix(a.frames, since, stream);
    SealedIsValid(c, e, a, k, stream, reason);
  }
}
