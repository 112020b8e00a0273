/** The incremental utterance assembler: model text deltas in, speech segments out. */
module Assembler {
  import opened Text

  datatype Segment = Segment(sequence: nat, text: string)

  /** Everything the assembler remembers between calls. */
  datatype Assembly = Assembly(buffer: string, segments: seq<Segment>)

  const MIN_SEGMENT_CHARS := 20

  // ---- The boundary pattern `[.!?](?:\s+|$)|[\u3002\uff01\uff1f]|\n+` ----

  predicate SentenceEndAt(s: string, i: nat)
    requires i < |s|
  {
    (s[i] == '.' || s[i] == '!' || s[i] == '?') && (i + 1 == |s| || IsSpace(s[i + 1]))
  }

  predicate BoundaryAt(s: string, i: nat)
    requires i < |s|
  {
    || SentenceEndAt(s, i)
    || s[i] == '\U{3002}' || s[i] == '\U{FF01}' || s[i] == '\U{FF1F}'
    || s[i] == '\n'
  }

  /** No character of `s` starts a match of the pattern. */
  ghost predicate NoBoundary(s: string) {
    forall i :: 0 <= i < |s| ==> !BoundaryAt(s, i)
  }

  /** Leftmost match of the pattern, as `re.search` finds it. */
  function FindBoundary(s: string, from: nat): (r: Option<nat>)
    requires from <= |s|
    ensures r.None? ==> forall i :: from <= i < |s| ==> !BoundaryAt(s, i)
    ensures r.Some? ==> from <= r.value < |s| && BoundaryAt(s, r.value)
    ensures r.Some? ==> forall i :: from <= i < r.value ==> !BoundaryAt(s, i)
    decreases |s| - from
  {
    if from == |s| then None
    else if BoundaryAt(s, from) then Some(from)
    else FindBoundary(s, from + 1)
  }

  /** First position at or after `i` whose character is not whitespace. */
  function SkipSpace(s: string, i: nat): (e: nat)
    requires i <= |s|
    ensures i <= e <= |s|
    ensures forall k :: i <= k < e ==> IsSpace(s[k])
    ensures e < |s| ==> !IsSpace(s[e])
    decreases |s| - i
  {
    if i < |s| && IsSpace(s[i]) then SkipSpace(s, i + 1) else i
  }

  function SkipNewlines(s: string, i: nat): (e: nat)
    requires i <= |s|
    ensures i <= e <= |s|
    ensures forall k :: i <= k < e ==> s[k] == '\n'
    ensures e < |s| ==> s[e] != '\n'
    decreases |s| - i
  {
    if i < |s| && s[i] == '\n' then SkipNewlines(s, i + 1) else i
  }

  /** End of the match that starts at `i`. */
  function MatchEnd(s: string, i: nat): (e: nat)
    requires i < |s| && BoundaryAt(s, i)
    ensures i < e <= |s|
  {
    if SentenceEndAt(s, i) then SkipSpace(s, i + 1)
    else if s[i] == '\n' then SkipNewlines(s, i + 1)
    else i + 1
  }

  /** End of the text kept from that match: a newline is dropped, punctuation is kept. */
  function KeptEnd(s: string, i: nat): (e: nat)
    requires i < |s|
    ensures i <= e <= |s|
  {
    if s[i] == '\n' then i else i + 1
  }

  /** `s.rfind(" ", 0, hi)`, with -1 for "not found". */
  function LastBlank(s: string, hi: nat): (r: int)
    requires hi <= |s|
    ensures -1 <= r < hi
    ensures r >= 0 ==> s[r] == ' '
    ensures forall k :: r < k < hi ==> s[k] != ' '
  {
    if hi == 0 then -1
    else if s[hi - 1] == ' ' then hi - 1
    else LastBlank(s, hi - 1)
  }

  function SafeCut(s: string, preferred: nat): (cut: nat)
    requires MIN_SEGMENT_CHARS <= preferred <= |s|
    ensures preferred / 2 <= cut <= preferred
    ensures cut != preferred ==> s[cut] == ' '
    ensures forall k | preferred / 2 <= k <= preferred && k < |s| && s[k] == ' ' :: k <= cut < |s| && s[cut] == ' '
  {
    var blank := LastBlank(s, if preferred + 1 <= |s| then preferred + 1 else |s|);
    if blank >= preferred / 2 then blank else preferred
  }

  // ---- One round of the loop in `push` ----

  /** What one round takes off the front of the buffer: the candidate text and the rest. */
  datatype Cut = Cut(candidate: string, rest: string)

  function NextCut(buffer: string, max: nat): (r: Option<Cut>)
    requires max >= MIN_SEGMENT_CHARS
    ensures r.None? <==> NoBoundary(buffer) && |buffer| < max
    ensures r.Some? ==> |r.value.rest| < |buffer| && |r.value.candidate| <= |buffer|
    ensures r.Some? ==> Trimmed(r.value.candidate)
  {
    match FindBoundary(buffer, 0)
    case Some(i) => Some(Cut(Strip(buffer[..KeptEnd(buffer, i)]), buffer[MatchEnd(buffer, i)..]))
    case None =>
      if |buffer| >= max then
        var cut := SafeCut(buffer, max);
        Some(Cut(Strip(buffer[..cut]), Lstrip(buffer[cut..])))
      else None
  }

  /** Dropping a blank stretch of a text drops nothing but whitespace. */
  lemma DropBlank(s: string, from: nat, to: nat)
    requires from <= to <= |s|
    requires forall k :: from <= k < to ==> IsSpace(s[k])
    ensures Squeeze(s[..from]) + Squeeze(s[to..]) == Squeeze(s)
  {
    hide Squeeze, IsSpace;
    ThreeParts(s, from, to);
    BlankMiddle(s[..from], s[from..to], s[to..]);
  }

  lemma BlankMiddle(head: string, gap: string, tail: string)
    requires forall k :: 0 <= k < |gap| ==> IsSpace(gap[k])
    ensures Squeeze(head + (gap + tail)) == Squeeze(head) + Squeeze(tail)
  {
    hide Squeeze, IsSpace;
    SqueezeConcat(head, gap + tail);
    SqueezeConcat(gap, tail);
    SqueezeBlank(gap);
    assert [] + Squeeze(tail) == Squeeze(tail);
  }

  lemma MatchTailIsBlank(s: string, i: nat)
    requires i < |s| && BoundaryAt(s, i)
    ensures KeptEnd(s, i) <= MatchEnd(s, i)
    ensures forall k :: KeptEnd(s, i) <= k < MatchEnd(s, i) ==> IsSpace(s[k])
  {
  }

  /** A round loses nothing but whitespace. */
  lemma NextCutKeepsText(buffer: string, max: nat)
    requires max >= MIN_SEGMENT_CHARS
    requires NextCut(buffer, max).Some?
    ensures var cut := NextCut(buffer, max).value;
            Squeeze(cut.candidate) + Squeeze(cut.rest) == Squeeze(buffer)
  {
    hide Squeeze, IsSpace, Lstrip, Rstrip, SkipSpace, SkipNewlines, LastBlank, FindBoundary, BoundaryAt;
    match FindBoundary(buffer, 0)
    case Some(i) =>
      MatchTailIsBlank(buffer, i);
      DropBlank(buffer, KeptEnd(buffer, i), MatchEnd(buffer, i));
    case None =>
      var cut := SafeCut(buffer, max);
      DropBlank(buffer, cut, cut);
  }

  function Emit(segments: seq<Segment>, text: string): seq<Segment> {
    if text == [] then segments else segments + [Segment(|segments|, text)]
  }

  /** The loop of `push`, as a recursion over rounds. */
  function Drain(a: Assembly, max: nat): (r: Assembly)
    requires max >= MIN_SEGMENT_CHARS
    ensures a.segments <= r.segments
    decreases |a.buffer|
  {
    match NextCut(a.buffer, max)
    case None => a
    case Some(cut) => Drain(Assembly(cut.rest, Emit(a.segments, cut.candidate)), max)
  }

  function Pushed(a: Assembly, delta: string, max: nat): (r: Assembly)
    requires max >= MIN_SEGMENT_CHARS
    ensures a.segments <= r.segments
  {
    if delta == [] then a else Drain(a.(buffer := a.buffer + delta), max)
  }

  function Finished(a: Assembly): (r: Assembly)
    ensures a.segments <= r.segments
  {
    Assembly([], Emit(a.segments, Strip(a.buffer)))
  }

  // ---- What every segment list satisfies ----

  /** Sequence numbers count from zero and every text is trimmed and not blank. */
  ghost predicate WellNumbered(segments: seq<Segment>) {
    forall i :: 0 <= i < |segments| ==>
      segments[i].sequence == i && segments[i].text != [] && Trimmed(segments[i].text)
  }

  ghost predicate Settled(a: Assembly, max: nat) {
    NoBoundary(a.buffer) && |a.buffer| < max && WellNumbered(a.segments)
  }

  /** The text of the segments and the buffer, whitespace ignored. */
  function SpokenText(segments: seq<Segment>): string {
    if segments == [] then []
    else SpokenText(segments[..|segments| - 1]) + Squeeze(segments[|segments| - 1].text)
  }

  function Content(a: Assembly): string {
    SpokenText(a.segments) + Squeeze(a.buffer)
  }

  lemma EmitKeeps(segments: seq<Segment>, text: string)
    requires WellNumbered(segments) && Trimmed(text)
    ensures WellNumbered(Emit(segments, text))
    ensures SpokenText(Emit(segments, text)) == SpokenText(segments) + Squeeze(text)
  {
    if text != [] {
      assert (segments + [Segment(|segments|, text)])[..|segments|] == segments;
    }
  }

  /** The whole loop: text is preserved up to whitespace, numbering stays contiguous, and no
      new segment is longer than the buffer it was cut from. */
  lemma {:induction false} DrainKeeps(a: Assembly, max: nat)
    requires max >= MIN_SEGMENT_CHARS && WellNumbered(a.segments)
    ensures Content(Drain(a, max)) == Content(a)
    ensures Settled(Drain(a, max), max)
    ensures forall i :: |a.segments| <= i < |Drain(a, max).segments| ==>
              |Drain(a, max).segments[i].text| <= |a.buffer|
    decreases |a.buffer|
  {
    hide NextCut, Squeeze, SpokenText, NoBoundary;
    match NextCut(a.buffer, max)
    case None =>
    case Some(cut) =>
      var next := Assembly(cut.rest, Emit(a.segments, cut.candidate));
      NextCutKeepsText(a.buffer, max);
      EmitKeeps(a.segments, cut.candidate);
      DrainKeeps(next, max);
      assert Content(next) == Content(a);
  }

  /** One `push`: the delta's text is added, and no new segment exceeds the bound plus the delta. */
  lemma PushKeeps(a: Assembly, delta: string, max: nat)
    requires max >= MIN_SEGMENT_CHARS && Settled(a, max)
    ensures Content(Pushed(a, delta, max)) == Content(a) + Squeeze(delta)
    ensures Settled(Pushed(a, delta, max), max)
    ensures forall i :: |a.segments| <= i < |Pushed(a, delta, max).segments| ==>
              |Pushed(a, delta, max).segments[i].text| < max + |delta|
  {
    if delta != [] {
      var b := a.(buffer := a.buffer + delta);
      SqueezeConcat(a.buffer, delta);
      assert Content(b) == Content(a) + Squeeze(delta);
      DrainKeeps(b, max);
    }
  }

  lemma FinishKeeps(a: Assembly, max: nat)
    requires max >= MIN_SEGMENT_CHARS && Settled(a, max)
    ensures Content(Finished(a)) == Content(a)
    ensures Settled(Finished(a), max)
    ensures forall i :: |a.segments| <= i < |Finished(a).segments| ==>
              |Finished(a).segments[i].text| < max
  {
    hide Squeeze, Strip, Trimmed, SpokenText;
    EmitKeeps(a.segments, Strip(a.buffer));
    SqueezeBlank([]);
  }

  function PushAll(a: Assembly, deltas: seq<string>, max: nat): Assembly
    requires max >= MIN_SEGMENT_CHARS
    decreases |deltas|
  {
    if deltas == [] then a else PushAll(Pushed(a, deltas[0], max), deltas[1..], max)
  }

  lemma {:induction false} PushAllKeeps(a: Assembly, deltas: seq<string>, max: nat)
    requires max >= MIN_SEGMENT_CHARS && Settled(a, max)
    ensures Content(PushAll(a, deltas, max)) == Content(a) + Squeeze(Join(deltas))
    ensures Settled(PushAll(a, deltas, max), max)
    decreases |deltas|
  {
    hide Pushed, Content, Squeeze, Settled;
    if deltas == [] {
      assert Squeeze(Join(deltas)) == [] by { SqueezeBlank(Join(deltas)); }
    } else {
      PushKeeps(a, deltas[0], max);
      PushAllKeeps(Pushed(a, deltas[0], max), deltas[1..], max);
      SqueezeConcat(deltas[0], Join(deltas[1..]));
    }
  }

  /** However the text is cut into deltas, the segments say exactly that text, whitespace aside. */
  lemma SegmentsSayTheText(deltas: seq<string>, max: nat)
    requires max >= MIN_SEGMENT_CHARS
    ensures var done := Finished(PushAll(Assembly([], []), deltas, max));
            && SpokenText(done.segments) == Squeeze(Join(deltas))
            && WellNumbered(done.segments)
  {
    hide PushAll, Join, Squeeze, Strip;
    var empty := Assembly([], []);
    assert Content(empty) == [] by { SqueezeBlank([]); }
    PushAllKeeps(empty, deltas, max);
    var last := PushAll(empty, deltas, max);
    FinishKeeps(last, max);
    assert Content(Finished(last)) == SpokenText(Finished(last).segments) by { SqueezeBlank([]); }
  }

  /** The object the dialogue pipeline owns. */
  class IncrementalUtteranceAssembler {
    const maxSegmentChars: nat
    var buffer: string
    var segments: seq<Segment>

    ghost predicate Valid()
      reads this
    {
      maxSegmentChars >= MIN_SEGMENT_CHARS && Settled(State(), maxSegmentChars)
    }

    function State(): Assembly
      reads this
    {
      Assembly(buffer, segments)
    }

    constructor (max: nat)
      requires max >= MIN_SEGMENT_CHARS
      ensures Valid() && State() == Assembly([], []) && maxSegmentChars == max
    {
      maxSegmentChars := max;
      buffer, segments := [], [];
    }

    method Push(delta: string) returns (emitted: seq<Segment>)
      requires Valid()
      modifies this
      ensures Valid()
      ensures State() == old(Pushed(State(), delta, maxSegmentChars))
      ensures segments == old(segments) + emitted
      ensures Content(State()) == old(Content(State())) + Squeeze(delta)
      ensures forall i :: |old(segments)| <= i < |segments| ==>
                |segments[i].text| < maxSegmentChars + |delta|
    {
      hide NextCut, Squeeze, Content, NoBoundary;
      emitted := [];
      if delta == [] { PushKeeps(State(), delta, maxSegmentChars); return; }
      PushKeeps(State(), delta, maxSegmentChars);
      buffer := buffer + delta;
      while true
        invariant segments == old(segments) + emitted
        invariant WellNumbered(segments)
        invariant Drain(State(), maxSegmentChars)
                  == old(Pushed(State(), delta, maxSegmentChars))
        decreases |buffer|
      {
        var more, made := Round();
        if !more { break; }
        emitted := emitted + made;
      }
    }

    /** One round of the loop in `push`; `more` is whether the loop goes on. */
    method Round() returns (more: bool, made: seq<Segment>)
      requires maxSegmentChars >= MIN_SEGMENT_CHARS && WellNumbered(segments)
      modifies this
      ensures WellNumbered(segments) && segments == old(segments) + made
      ensures var cut := old(NextCut(buffer, maxSegmentChars));
              && more == cut.Some?
              && (more ==> && buffer == cut.value.rest
                           && segments == Emit(old(segments), cut.value.candidate))
              && (!more ==> buffer == old(buffer) && made == [])
    {
      hide WellNumbered, Strip, Trimmed, Lstrip, Squeeze, FindBoundary;
      more, made := true, [];
      var candidate;
      var found := FindBoundary(buffer, 0);
      if found.Some? {
        candidate := Strip(buffer[..KeptEnd(buffer, found.value)]);
        buffer := buffer[MatchEnd(buffer, found.value)..];
      } else if |buffer| >= maxSegmentChars {
        var cut := SafeCut(buffer, maxSegmentChars);
        candidate := Strip(buffer[..cut]);
        buffer := Lstrip(buffer[cut..]);
      } else {
        more := false;
        return;
      }
      if candidate != [] {
        var segment := MakeSegment(candidate);
        made := [segment];
      }
    }

    method Finish() returns (emitted: seq<Segment>)
      requires Valid()
      modifies this
      ensures Valid()
      ensures State() == old(Finished(State()))
      ensures segments == old(segments) + emitted && |emitted| <= 1
      ensures Content(State()) == old(Content(State()))
    {
      hide Strip, Squeeze, Content, NoBoundary, WellNumbered, Trimmed;
      FinishKeeps(State(), maxSegmentChars);
      var candidate := Strip(buffer);
      buffer := [];
      if candidate == [] { return []; }
      var segment := MakeSegment(candidate);
      emitted := [segment];
    }

    method MakeSegment(text: string) returns (segment: Segment)
      requires WellNumbered(segments) && text != [] && Trimmed(text)
      modifies `segments
      ensures segment == Segment(|old(segments)|, text)
      ensures segments == old(segments) + [segment] && WellNumbered(segments)
    {
      segment := Segment(|segments|, text);
      segments := segments + [segment];
    }
  }
}
