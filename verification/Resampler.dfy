/** The microphone worklet: channels are mixed down, then resampled by linear interpolation while they
    arrive. The reference is the interpolation of the whole signal at once. */
module Resampler {

  // ---- The whole signal at once ----

  function Level(channel: seq<real>, i: nat): real {
    if i < |channel| then channel[i] else 0.0
  }

  function SumAt(channels: seq<seq<real>>, i: nat): real {
    if channels == [] then 0.0 else SumAt(channels[..|channels| - 1], i) + Level(channels[|channels| - 1], i)
  }

  function MixAt(channels: seq<seq<real>>, i: nat): real
    requires channels != []
  {
    SumAt(channels, i) / (|channels| as real)
  }

  /** What one call hears: as many samples as the first channel has. */
  function Downmix(channels: seq<seq<real>>): seq<real> {
    if channels == [] then [] else seq(|channels[0]|, i requires 0 <= i => MixAt(channels, i))
  }

  /** The signal at a real position, on the straight line between its two neighbours. */
  function Interpolate(signal: seq<real>, at: real): real {
    var left := at.Floor;
    if 0 <= left && left + 1 < |signal|
    then signal[left] + (signal[left + 1] - signal[left]) * (at - left as real)
    else 0.0
  }

  function Position(k: nat, ratio: real): real {
    k as real * ratio
  }

  /** Output `k` can be computed: both its neighbours are known. */
  predicate Ready(signal: seq<real>, ratio: real, k: nat) {
    Position(k, ratio) + 1.0 < |signal| as real
  }

  /** `out` starts the resampled signal. */
  predicate Resamples(signal: seq<real>, ratio: real, out: seq<real>) {
    forall k: nat | k < |out| :: Ready(signal, ratio, k) && out[k] == Interpolate(signal, Position(k, ratio))
  }

  /** `out` is all of the resampled signal that is determined. */
  ghost predicate ResampledAll(signal: seq<real>, ratio: real, out: seq<real>) {
    Resamples(signal, ratio, out) && forall k: nat :: Ready(signal, ratio, k) <==> k < |out|
  }

  lemma PositionSteps(k: nat, ratio: real)
    ensures Position(k + 1, ratio) == Position(k, ratio) + ratio
  {
    assert (k + 1) as real == k as real + 1.0;
    assert (k as real + 1.0) * ratio == k as real * ratio + ratio;
  }

  lemma PositionMonotone(j: nat, k: nat, ratio: real)
    requires j <= k && ratio > 0.0
    ensures Position(j, ratio) <= Position(k, ratio)
  {
    ScaledOrder(j as real, k as real, ratio);
  }

  lemma ScaledOrder(x: real, y: real, ratio: real)
    requires x <= y && ratio > 0.0
    ensures x * ratio <= y * ratio
  {
    assert (y - x) * ratio >= 0.0;
  }

  lemma ReadyExactly(signal: seq<real>, ratio: real, out: seq<real>)
    requires ratio > 0.0 && Resamples(signal, ratio, out) && !Ready(signal, ratio, |out|)
    ensures ResampledAll(signal, ratio, out)
  {
    hide Position, Interpolate;
    forall k: nat ensures Ready(signal, ratio, k) <==> k < |out| {
      if |out| <= k {
        PositionMonotone(|out|, k, ratio);
      }
    }
  }

  lemma InterpolateExtends(signal: seq<real>, more: seq<real>, at: real)
    requires 0.0 <= at && at + 1.0 < |signal| as real
    ensures Interpolate(signal + more, at) == Interpolate(signal, at)
  {
    var left := at.Floor;
    assert 0 <= left && left + 1 < |signal|;
    Neighbours(signal, more, left);
  }

  lemma Neighbours(signal: seq<real>, more: seq<real>, i: nat)
    requires i + 1 < |signal|
    ensures (signal + more)[i] == signal[i] && (signal + more)[i + 1] == signal[i + 1]
  {
  }

  lemma PositionPositive(k: nat, ratio: real)
    requires ratio > 0.0
    ensures Position(k, ratio) >= 0.0
  {
    PositionMonotone(0, k, ratio);
    assert Position(0, ratio) == 0.0;
  }

  /** Later input changes no sample already determined. */
  lemma ResamplesExtends(signal: seq<real>, more: seq<real>, ratio: real, out: seq<real>)
    requires ratio > 0.0 && Resamples(signal, ratio, out)
    ensures Resamples(signal + more, ratio, out)
  {
    hide Position, Interpolate;
    forall k: nat | k < |out|
      ensures Ready(signal + more, ratio, k) && out[k] == Interpolate(signal + more, Position(k, ratio)) {
      assert Ready(signal, ratio, k);
      PositionPositive(k, ratio);
      InterpolateExtends(signal, more, Position(k, ratio));
    }
  }

  lemma ResampledAllUnique(signal: seq<real>, ratio: real, a: seq<real>, b: seq<real>)
    requires ResampledAll(signal, ratio, a) && ResampledAll(signal, ratio, b)
    ensures a == b
  {
    hide Position, Interpolate, Ready;
    assert |a| <= |b| by {
      assert |a| > 0 ==> Ready(signal, ratio, |a| - 1);
    }
    assert |b| <= |a| by {
      assert |b| > 0 ==> Ready(signal, ratio, |b| - 1);
    }
  }

  /** Interpolation is linear: a straight line is reproduced exactly at every position between its ends. */
  lemma LinesAreReproduced(signal: seq<real>, p: real, q: real, at: real)
    requires forall i | 0 <= i < |signal| :: signal[i] == p + q * (i as real)
    requires 0.0 <= at && at + 1.0 < |signal| as real
    ensures Interpolate(signal, at) == p + q * at
  {
    var left := at.Floor;
    var x, y := signal[left], signal[left + 1];
    assert x == p + q * (left as real) && y == p + q * ((left + 1) as real);
    assert y - x == q by { Slope(q, left as real); }
    Along(p, q, left as real, at);
  }

  lemma Slope(q: real, x: real)
    ensures q * (x + 1.0) - q * x == q
  {
  }

  lemma Along(p: real, q: real, left: real, at: real)
    ensures (p + q * left) + q * (at - left) == p + q * at
  {
  }

  /** Only the two neighbours of a position matter. */
  lemma OnlyNeighboursMatter(a: seq<real>, b: seq<real>, at: real)
    requires 0.0 <= at && at + 1.0 < |a| as real && |a| == |b|
    requires a[at.Floor] == b[at.Floor] && a[at.Floor + 1] == b[at.Floor + 1]
    ensures Interpolate(a, at) == Interpolate(b, at)
  {
  }

  /** The downmix of equal channels is that channel; in general the mean times the number of channels is their
      sum. */
  lemma MixIsMean(channels: seq<seq<real>>, i: nat)
    requires channels != []
    ensures MixAt(channels, i) * (|channels| as real) == SumAt(channels, i)
  {
  }

  lemma {:induction false} EqualChannels(channels: seq<seq<real>>, i: nat, v: real)
    requires forall c | 0 <= c < |channels| :: Level(channels[c], i) == v
    ensures SumAt(channels, i) == v * (|channels| as real)
    ensures channels != [] ==> MixAt(channels, i) == v
  {
    if channels != [] {
      var n := |channels| - 1;
      EqualChannels(channels[..n], i, v);
      assert v * (n as real) + v == v * ((n + 1) as real);
      QuotientIs(SumAt(channels, i), v, |channels| as real);
    }
  }

  /** Samples that a channel does not have count as silence. */
  lemma {:induction false} PaddingIsSilent(channels: seq<seq<real>>, k: nat, n: nat, i: nat)
    requires k < |channels|
    ensures SumAt(channels[k := channels[k] + seq(n, _ => 0.0)], i) == SumAt(channels, i)
    ensures MixAt(channels[k := channels[k] + seq(n, _ => 0.0)], i) == MixAt(channels, i)
  {
    var padded := channels[k] + seq(n, _ => 0.0);
    var last := |channels| - 1;
    var other := channels[k := padded];
    if k < last {
      PaddingIsSilent(channels[..last], k, n, i);
      assert other[..last] == channels[..last][k := padded];
    } else {
      assert other[..last] == channels[..last];
    }
  }

  // ---- Frames ----

  function Flatten(frames: seq<seq<real>>): seq<real> {
    if frames == [] then [] else Flatten(frames[..|frames| - 1]) + frames[|frames| - 1]
  }

  predicate AllOfLength(frames: seq<seq<real>>, n: nat) {
    forall i | 0 <= i < |frames| :: |frames[i]| == n
  }

  lemma FlattenAppend(frames: seq<seq<real>>, frame: seq<real>)
    ensures Flatten(frames + [frame]) == Flatten(frames) + frame
  {
    assert (frames + [frame])[..|frames|] == frames;
  }

  /** Whole frames and a shorter rest can be cut from a stream of samples in one way only. */
  lemma {:induction false} FramesUnique(p: seq<seq<real>>, f: seq<real>, q: seq<seq<real>>, g: seq<real>, n: nat)
    requires AllOfLength(p, n) && AllOfLength(q, n) && |f| < n && |g| < n
    requires Flatten(p) + f == Flatten(q) + g
    ensures p == q && f == g
  {
    FlattenLength(p, n);
    FlattenLength(q, n);
    SameQuotient(|p|, |f|, |q|, |g|, n);
    SplitSame(Flatten(p), f, Flatten(q), g);
    SameFrames(p, q, n);
  }

  lemma {:induction false} FlattenLength(p: seq<seq<real>>, n: nat)
    requires AllOfLength(p, n)
    ensures |Flatten(p)| == |p| * n
  {
    if p != [] {
      FlattenLength(p[..|p| - 1], n);
      assert |p| * n == (|p| - 1) * n + n;
    }
  }

  lemma SameQuotient(a: nat, r: nat, b: nat, s: nat, n: nat)
    requires r < n && s < n && a * n + r == b * n + s
    ensures a == b && r == s
  {
    if a < b {
      FewerFramesFewerSamples(a, r, b, n);
    } else if b < a {
      FewerFramesFewerSamples(b, s, a, n);
    }
  }

  lemma FewerFramesFewerSamples(a: nat, r: nat, b: nat, n: nat)
    requires a < b && r < n
    ensures a * n + r < b * n
  {
    assert (a + 1) * n <= b * n;
  }

  lemma SplitSame(x: seq<real>, f: seq<real>, y: seq<real>, g: seq<real>)
    requires |x| == |y| && x + f == y + g
    ensures x == y && f == g
  {
    assert (x + f)[..|x|] == x && (y + g)[..|y|] == y;
    assert (x + f)[|x|..] == f && (y + g)[|y|..] == g;
  }

  lemma {:induction false} SameFrames(p: seq<seq<real>>, q: seq<seq<real>>, n: nat)
    requires AllOfLength(p, n) && AllOfLength(q, n) && |p| == |q| && Flatten(p) == Flatten(q)
    ensures p == q
  {
    if p != [] {
      var k := |p| - 1;
      FlattenLength(p[..k], n);
      FlattenLength(q[..k], n);
      SplitSame(Flatten(p[..k]), p[k], Flatten(q[..k]), q[k]);
      SameFrames(p[..k], q[..k], n);
      assert p == p[..k] + [p[k]] && q == q[..k] + [q[k]];
    }
  }

  /** How many steps of `ratio` still fit. */
  function Remaining(room: real, ratio: real): int
    requires ratio > 0.0
  {
    (room / ratio).Floor
  }

  lemma RemainingSteps(room: real, ratio: real)
    requires room > 0.0 && ratio > 0.0
    ensures Remaining(room, ratio) >= 0 && Remaining(room - ratio, ratio) < Remaining(room, ratio)
  {
    var q := room / ratio;
    assert q * ratio == room;
    assert (q - 1.0) * ratio == room - ratio;
    QuotientIs(room - ratio, q - 1.0, ratio);
    assert q > 0.0;
  }

  lemma QuotientIs(x: real, y: real, ratio: real)
    requires ratio > 0.0 && x == y * ratio
    ensures x / ratio == y
  {
  }

  lemma SuffixExtends(signal: seq<real>, dropped: nat, more: seq<real>)
    requires dropped <= |signal|
    ensures (signal + more)[dropped..] == signal[dropped..] + more
  {
  }

  lemma InterpolateSuffix(signal: seq<real>, dropped: nat, at: real)
    requires dropped <= |signal| && 0.0 <= at && at + 1.0 < |signal[dropped..]| as real
    ensures Interpolate(signal[dropped..], at) == Interpolate(signal, at + dropped as real)
  {
    var left := at.Floor;
    assert (at + dropped as real).Floor == left + dropped;
    assert signal[dropped..][left] == signal[left + dropped];
    assert signal[dropped..][left + 1] == signal[left + 1 + dropped];
  }

  lemma ResamplesAppend(signal: seq<real>, ratio: real, out: seq<real>, x: real)
    requires Resamples(signal, ratio, out) && Ready(signal, ratio, |out|)
    requires x == Interpolate(signal, Position(|out|, ratio))
    ensures Resamples(signal, ratio, out + [x])
  {
    hide Position, Interpolate;
  }

  method MixSample(channels: seq<seq<real>>, i: nat) returns (mono: real)
    requires channels != []
    ensures mono == MixAt(channels, i)
  {
    mono := 0.0;
    var c := 0;
    while c < |channels|
      invariant c <= |channels|
      invariant mono == SumAt(channels[..c], i)
    {
      assert channels[..c + 1][..c] == channels[..c];
      mono := mono + Level(channels[c], i);
      c := c + 1;
    }
    assert channels[..c] == channels;
    mono := mono / (|channels| as real);
  }

  // ---- The worklet ----

  class MicrophoneProcessor {
    const rateRatio: real
    const frameSamples: nat
    var source: seq<real>
    var sourcePosition: real
    var frame: array<real>
    var frameOffset: nat
    var active: bool
    var posted: seq<seq<real>>
    ghost var signal: seq<real>
    ghost var dropped: nat

    /** Everything put out so far, in whole frames and in the frame being filled. */
    ghost function Output(): seq<real>
      reads this, frame
      requires frameOffset <= frame.Length
    {
      Flatten(posted) + frame[..frameOffset]
    }

    ghost predicate Framed()
      reads this, frame
    {
      && rateRatio > 0.0 && frame.Length == frameSamples && frameOffset < frameSamples
      && AllOfLength(posted, frameSamples)
    }

    /** The position in the remaining input is the position of the next output in the whole signal. */
    ghost predicate Placed(next: nat)
      reads this
    {
      && dropped <= |signal| && source == signal[dropped..]
      && sourcePosition >= 0.0 && sourcePosition + dropped as real == Position(next, rateRatio)
    }

    ghost predicate Valid()
      reads this, frame
    {
      && Framed()
      && (active ==>
        && ResampledAll(signal, rateRatio, Output())
        && Placed(|Output()|) && |source| <= 1)
    }

    constructor (rate: real, targetRate: real, samples: nat)
      requires rate > 0.0 && targetRate > 0.0 && samples > 0
      ensures Valid() && fresh(frame) && active && signal == [] && posted == [] && frameOffset == 0
      ensures rateRatio == rate / targetRate && frameSamples == samples
    {
      rateRatio := rate / targetRate;
      frameSamples := samples;
      source, sourcePosition := [], 0.0;
      frame := new real[samples](_ => 0.0);
      frameOffset, active, posted := 0, true, [];
      signal, dropped := [], 0;
      new;
      hide Interpolate;
      assert Position(0, rateRatio) == 0.0;
      assert Output() == [];
      ReadyExactly(signal, rateRatio, []);
    }

    /** The `stop` message. */
    method Stop()
      requires Valid()
      modifies this`active, this`source
      ensures Valid() && !active && posted == old(posted)
    {
      active := false;
      source := [];
    }

    /** One block of input: the signal grows by its downmix, and by `Valid` everything that can now be
        interpolated has been put out. Frames already posted stay as they are. */
    method Process(channels: seq<seq<real>>) returns (more: bool)
      requires Valid()
      modifies this, frame
      ensures Valid() && active == old(active) == more
      ensures frame == old(frame) || fresh(frame)
      ensures more ==> signal == old(signal) + Downmix(channels)
      ensures |old(posted)| <= |posted| && posted[..|old(posted)|] == old(posted)
      ensures !more ==> posted == old(posted) && frame == old(frame) && frame[..] == old(frame[..])
    {
      hide ResampledAll, Flatten;
      if !active {
        return false;
      }
      if channels == [] || channels[0] == [] {
        assert old(signal) + [] == signal;
        return true;
      }
      Hear(channels);
      ResampleAvailableInput();
      return true;
    }

    /** The mixing loop of `process`. */
    method Hear(channels: seq<seq<real>>)
      requires Valid() && active && channels != []
      modifies this`source, this`signal
      ensures signal == old(signal) + Downmix(channels)
      ensures Framed() && Placed(|Output()|) && Resamples(signal, rateRatio, Output())
    {
      hide Flatten, Interpolate, Position, MixAt;
      var i := 0;
      while i < |channels[0]|
        invariant i <= |channels[0]|
        invariant source == old(source) + Downmix(channels)[..i] && signal == old(signal)
      {
        var mono := MixSample(channels, i);
        source := source + [mono];
        assert Downmix(channels)[..i + 1] == Downmix(channels)[..i] + [mono];
        i := i + 1;
      }
      assert Downmix(channels)[..i] == Downmix(channels);
      ResamplesExtends(signal, Downmix(channels), rateRatio, Output());
      SuffixExtends(signal, dropped, Downmix(channels));
      signal := signal + Downmix(channels);
    }

    /** Produce every output whose neighbours are known, then forget the input behind the position. */
    method ResampleAvailableInput()
      requires Framed() && Placed(|Output()|) && Resamples(signal, rateRatio, Output())
      modifies this`sourcePosition, this`source, this`frame, this`frameOffset, this`posted, this`dropped, frame
      ensures Framed() && (frame == old(frame) || fresh(frame))
      ensures ResampledAll(signal, rateRatio, Output()) && Placed(|Output()|) && |source| <= 1
      ensures |old(posted)| <= |posted| && posted[..|old(posted)|] == old(posted)
    {
      hide Flatten, Interpolate, Position, ResampledAll;
      while sourcePosition + 1.0 < |source| as real
        invariant Framed() && (frame == old(frame) || fresh(frame))
        invariant Placed(|Output()|) && Resamples(signal, rateRatio, Output())
        invariant source == old(source) && dropped == old(dropped)
        invariant |old(posted)| <= |posted| && posted[..|old(posted)|] == old(posted)
        decreases Remaining(|source| as real - sourcePosition, rateRatio)
      {
        RemainingSteps(|source| as real - sourcePosition, rateRatio);
        EmitNext();
      }
      ReadyExactly(signal, rateRatio, Output());
      DropConsumed();
    }

    /** One turn of the resampling loop. */
    method EmitNext()
      requires Framed() && Placed(|Output()|) && Resamples(signal, rateRatio, Output())
      requires sourcePosition + 1.0 < |source| as real
      modifies this`sourcePosition, this`frame, this`frameOffset, this`posted, frame
      ensures Framed() && (frame == old(frame) || fresh(frame))
      ensures Placed(|Output()|) && Resamples(signal, rateRatio, Output())
      ensures sourcePosition == old(sourcePosition) + rateRatio
      ensures posted == old(posted) || (|posted| == |old(posted)| + 1 && posted[..|old(posted)|] == old(posted))
    {
      hide Flatten, Position, Ready, Resamples;
      ghost var out := Output();
      var leftIndex := sourcePosition.Floor;
      var fraction := sourcePosition - leftIndex as real;
      var left, right := source[leftIndex], source[leftIndex + 1];
      var value := left + (right - left) * fraction;
      assert value == Interpolate(signal, Position(|out|, rateRatio)) by {
        InterpolateSuffix(signal, dropped, sourcePosition);
      }
      NextIsReady(|out|);
      ResamplesAppend(signal, rateRatio, out, value);
      PositionSteps(|out|, rateRatio);
      sourcePosition := sourcePosition + rateRatio;
      Put(value);
      assert |Output()| == |out| + 1;
    }

    lemma NextIsReady(next: nat)
      requires Placed(next) && sourcePosition + 1.0 < |source| as real
      ensures Ready(signal, rateRatio, next)
    {
    }

    /** Fill the frame, and post it once it is full. */
    method Put(value: real)
      requires Framed()
      modifies this`frame, this`frameOffset, this`posted, frame
      ensures Framed() && (frame == old(frame) || fresh(frame))
      ensures Output() == old(Output()) + [value]
      ensures posted == old(posted) || (|posted| == |old(posted)| + 1 && posted[..|old(posted)|] == old(posted))
    {
      hide Flatten;
      frame[frameOffset] := value;
      frameOffset := frameOffset + 1;
      assert frame[..frameOffset] == old(frame[..frameOffset]) + [value];
      if frameOffset == frameSamples {
        FlattenAppend(posted, frame[..]);
        assert frame[..] == frame[..frameOffset];
        EmptyEnd(Flatten(posted + [frame[..]]));
        posted := posted + [frame[..]];
        frame := new real[frameSamples](_ => 0.0);
        frameOffset := 0;
        assert frame[..0] == [];
      }
      AppendAssociates(Flatten(old(posted)), old(frame[..frameOffset]), [value]);
    }

    /** The splice at the end of `resampleAvailableInput`. */
    method DropConsumed()
      requires Framed() && Placed(|Output()|) && sourcePosition + 1.0 >= |source| as real
      modifies this`sourcePosition, this`source, this`dropped
      ensures Placed(|Output()|) && |source| <= 1
    {
      hide Flatten, Position;
      var floor := sourcePosition.Floor;
      var consumed := if floor < |source| then floor else |source|;
      if consumed > 0 {
        assert signal[dropped..][consumed..] == signal[dropped + consumed..];
        source := source[consumed..];
        sourcePosition := sourcePosition - consumed as real;
        dropped := dropped + consumed;
      }
    }
  }

  lemma AppendAssociates(a: seq<real>, b: seq<real>, c: seq<real>)
    ensures (a + b) + c == a + (b + c)
  {
  }

  lemma EmptyEnd(a: seq<real>)
    ensures a + [] == a
  {
  }

  /** However the same signal was cut into blocks, the same frames were posted. */
  lemma ChunkingIsInvisible(a: MicrophoneProcessor, b: MicrophoneProcessor)
    requires a.Valid() && b.Valid() && a.active && b.active
    requires a.signal == b.signal && a.rateRatio == b.rateRatio && a.frameSamples == b.frameSamples
    ensures a.posted == b.posted && a.frame[..a.frameOffset] == b.frame[..b.frameOffset]
  {
    hide Flatten, ResampledAll, Position;
    ResampledAllUnique(a.signal, a.rateRatio, a.Output(), b.Output());
    FramesUnique(a.posted, a.frame[..a.frameOffset], b.posted, b.frame[..b.frameOffset], a.frameSamples);
  }
}
