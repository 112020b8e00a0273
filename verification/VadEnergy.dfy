/** What the detector measures: samples are signed, energy is their mean square, and time is counted in whole
    sample frames. */
module VadEnergy {
  import opened Octets
  import opened VadSpec

  // ---- Samples ----

  predicate IsSample(v: int) {
    -32_768 <= v < 32_768
  }

  /** A signed sample as two bytes, the lower first: two's complement modulo 65536. */
  function Low(v: int): byte {
    ((v % 65_536) % 256) as byte
  }

  function High(v: int): byte {
    ((v % 65_536) / 256) as byte
  }

  /** The detector reads what a little-endian signed 16-bit encoder writes. */
  lemma SampleInverts(v: int)
    requires IsSample(v)
    ensures Sample(Low(v), High(v)) == v
  {
    var u := v % 65_536;
    assert u == 256 * (u / 256) + u % 256;
    assert u == if v < 0 then v + 65_536 else v;
  }

  lemma SampleInRange(lo: byte, hi: byte)
    ensures IsSample(Sample(lo, hi)) && Low(Sample(lo, hi)) == lo && High(Sample(lo, hi)) == hi
  {
    var n := lo as int + 256 * hi as int;
    assert n % 256 == lo as int && n / 256 == hi as int;
    assert Sample(lo, hi) % 65_536 == n;
  }

  function Pcm(samples: seq<int>): (pcm: seq<byte>)
    ensures |pcm| == 2 * |samples|
  {
    if samples == [] then [] else [Low(samples[0]), High(samples[0])] + Pcm(samples[1..])
  }

  function Squares(samples: seq<int>): nat {
    if samples == [] then 0 else samples[0] * samples[0] + Squares(samples[1..])
  }

  lemma {:induction false} SquareSumShifts(front: seq<byte>, rest: seq<byte>, i: nat)
    requires i <= |rest|
    ensures SquareSum(front + rest, |front| + i) == SquareSum(rest, i)
    decreases |rest| - i
  {
    if i + 1 < |rest| {
      assert (front + rest)[|front| + i] == rest[i] && (front + rest)[|front| + i + 1] == rest[i + 1];
      SquareSumShifts(front, rest, i + 2);
    }
  }

  /** The loop over byte pairs sums the squares of the samples. */
  lemma {:induction false} SquareSumIs(samples: seq<int>)
    requires forall i | 0 <= i < |samples| :: IsSample(samples[i])
    ensures SquareSum(Pcm(samples), 0) == Squares(samples)
  {
    if samples != [] {
      var v := samples[0];
      SquareSumIs(samples[1..]);
      SampleInverts(v);
      var head := [Low(v), High(v)];
      SquareSumShifts(head, Pcm(samples[1..]), 0);
      var pcm := Pcm(samples);
      assert pcm[0] == Low(v) && pcm[1] == High(v);
      assert SquareSum(pcm, 0) == v * v + SquareSum(pcm, 2);
    }
  }

  /** A frame is above a threshold exactly when the mean square of its samples is at least the threshold
      squared. */
  lemma AboveIsMeanSquare(f: Frame, samples: seq<int>, threshold: nat)
    requires f.pcm == Pcm(samples) && forall i | 0 <= i < |samples| :: IsSample(samples[i])
    ensures Above(f, threshold) <==> Squares(samples) >= threshold * threshold * |samples|
  {
    hide SquareSum;
    SquareSumIs(samples);
    assert |f.pcm| / 2 == |samples|;
  }

  function Constant(a: int, n: nat): seq<int> {
    if n == 0 then [] else [a] + Constant(a, n - 1)
  }

  lemma {:induction false} ConstantSquares(a: int, n: nat)
    ensures |Constant(a, n)| == n && Squares(Constant(a, n)) == a * a * n
    ensures forall i | 0 <= i < n :: Constant(a, n)[i] == a
  {
    if n > 0 {
      ConstantSquares(a, n - 1);
      assert Constant(a, n)[1..] == Constant(a, n - 1);
      Distribute(a * a, n);
    }
  }

  lemma Distribute(x: int, n: nat)
    requires n > 0
    ensures x + x * (n - 1) == x * n
  {
  }

  function Magnitude(a: int): nat {
    if a < 0 then -a else a
  }

  lemma SquareOrder(a: nat, t: nat)
    ensures a * a >= t * t <==> a >= t
  {
    if a >= t {
      assert a * a >= a * t >= t * t;
    } else {
      assert a * a <= a * t;
      assert a * t < t * t by { assert t * t - a * t == (t - a) * t; }
    }
  }

  lemma Cancel(x: nat, y: nat, n: nat)
    requires n > 0
    ensures x * n >= y * n <==> x >= y
  {
    if x < y {
      assert (x + 1) * n <= y * n;
    }
  }

  /** A frame of constant amplitude is above a threshold exactly when the amplitude is, whatever its sign. */
  lemma ConstantFrameIsAbove(f: Frame, a: int, n: nat, threshold: nat)
    requires IsSample(a) && n > 0 && f.pcm == Pcm(Constant(a, n))
    ensures Above(f, threshold) <==> Magnitude(a) >= threshold
  {
    hide Above, Squares, Pcm, Constant;
    ConstantSquares(a, n);
    AboveIsMeanSquare(f, Constant(a, n), threshold);
    assert a * a == Magnitude(a) * Magnitude(a);
    Cancel(a * a, threshold * threshold, n);
    SquareOrder(Magnitude(a), threshold);
  }

  // ---- Time ----

  lemma QuotientIs(a: nat, b: nat)
    requires b > 0
    ensures Quotient(a, b) * b <= a < Quotient(a, b) * b + b
  {
  }

  /** A frame of `n` sample frames lasts `n` sampling periods, rounded down to nanoseconds. */
  lemma DurationIs(f: Frame, n: nat)
    requires ValidFrame(f) && |f.pcm| == n * (2 * f.format.channels)
    ensures Duration(f) * f.format.sampleRate <= n * 1_000_000_000 < (Duration(f) + 1) * f.format.sampleRate
    ensures End(f) == f.capturedAt + Duration(f)
  {
    hide Quotient;
    SampleFramesIs(f, n);
    var rate := f.format.sampleRate;
    QuotientIs(n * 1_000_000_000, rate);
    assert (Duration(f) + 1) * rate == Duration(f) * rate + rate;
  }

  lemma SampleFramesIs(f: Frame, n: nat)
    requires ValidFrame(f) && |f.pcm| == n * (2 * f.format.channels)
    ensures SampleFrames(f) == n
  {
    hide Quotient;
    var b := 2 * f.format.channels;
    QuotientIs(|f.pcm|, b);
    var q := Quotient(|f.pcm|, b);
    if q < n {
      MoreSteps(q, n, b);
    } else if n < q {
      MoreSteps(n, q, b);
    }
  }

  lemma MoreSteps(n: nat, q: nat, b: nat)
    requires n < q
    ensures n * b + b <= q * b
  {
    assert (n + 1) * b <= q * b;
  }
}
