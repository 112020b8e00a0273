/** What a listener sees of each segment: its audio complete and in order, and when a dialogue finishes. */
module PipelineSpeech {
  import opened Text
  import opened Assembler
  import opened Pipeline
  import opened PipelineInvariant
  import opened PipelineTheorems
  import opened PipelineText

  // ---- One segment ----

  /** `chunk` is the `k`-th piece of the audio of `g`. */
  predicate BelongsAt(c: Config, g: Segment, chunk: Chunk, k: nat) {
    chunk.segmentId == c.idOf(g.sequence) && chunk.sequence == g.sequence && chunk.index == k
  }

  /** What the synthesizer must yield for `g`: at least one chunk, numbered from zero, the last one and no
      other marked final, and then the end of its stream. */
  predicate ProperSpeech(c: Config, g: Segment) {
    var script := c.speech(g);
    && script.end.Ends? && script.chunks != []
    && forall k | 0 <= k < |script.chunks| ::
         BelongsAt(c, g, script.chunks[k], k) && (script.chunks[k].isFinal <==> k == |script.chunks| - 1)
  }

  predicate AudioAt(c: Config, g: Segment, item: AudioItem, k: nat) {
    var chunks := c.speech(g).chunks;
    item.Audio? ==>
      k < |chunks| && item.chunk == chunks[k] && BelongsAt(c, g, chunks[k], k) && (k > 0 ==> !chunks[k - 1].isFinal)
  }

  /** From chunk `next` on, whatever is put is the next chunk of the script, in its place and not after a
      final one; a clean end comes only after all chunks, the last of them final. */
  lemma {:induction false} SpeechOrdered(c: Config, g: Segment, next: nat, sawFinal: bool)
    requires next <= |c.speech(g).chunks|
    requires if next == 0 then !sawFinal else sawFinal == c.speech(g).chunks[next - 1].isFinal
    ensures var items := Speech(c, g, next, next, sawFinal); var script := c.speech(g);
      && (forall k | 0 <= k < |items| :: AudioAt(c, g, items[k], next + k))
      && (items[|items| - 1].SynthesisFinished? ==>
            && script.end.Ends? && next + |items| - 1 == |script.chunks| > 0 && script.chunks[|script.chunks| - 1].isFinal)
    decreases |c.speech(g).chunks| - next
  {
    var chunks := c.speech(g).chunks;
    if next < |chunks| && ChunkFault(c, g, chunks[next], next, sawFinal).None? {
      SpeechOrdered(c, g, next + 1, chunks[next].isFinal);
      var rest := Speech(c, g, next + 1, next + 1, chunks[next].isFinal);
      var items := Speech(c, g, next, next, sawFinal);
      assert items == [Audio(chunks[next])] + rest;
      forall k | 0 <= k < |items| ensures AudioAt(c, g, items[k], next + k) {
        if k > 0 {
          assert items[k] == rest[k - 1] && AudioAt(c, g, rest[k - 1], next + 1 + (k - 1));
        }
      }
    }
  }

  lemma {:induction false} ProperIsSpoken(c: Config, g: Segment, next: nat, sawFinal: bool)
    requires ProperSpeech(c, g) && next <= |c.speech(g).chunks|
    requires if next == 0 then !sawFinal else sawFinal == c.speech(g).chunks[next - 1].isFinal
    ensures var items := Speech(c, g, next, next, sawFinal);
      items[|items| - 1].SynthesisFinished? && |items| == |c.speech(g).chunks| - next + 1
    decreases |c.speech(g).chunks| - next
  {
    var chunks := c.speech(g).chunks;
    if next < |chunks| {
      assert BelongsAt(c, g, chunks[next], next);
      ProperIsSpoken(c, g, next + 1, chunks[next].isFinal);
    }
  }

  /** A synthesis ends cleanly exactly when its script is proper. */
  lemma CleanExactly(c: Config, g: Segment)
    ensures var items := AllAudio(c, g); items[|items| - 1].SynthesisFinished? <==> ProperSpeech(c, g)
  {
    SpeechOrdered(c, g, 0, false);
    SpeechIsNarration(c, g, 0, 0, false);
    if ProperSpeech(c, g) {
      ProperIsSpoken(c, g, 0, false);
    }
    var items, chunks := AllAudio(c, g), c.speech(g).chunks;
    if items[|items| - 1].SynthesisFinished? {
      forall k | 0 <= k < |chunks|
        ensures BelongsAt(c, g, chunks[k], k) && (chunks[k].isFinal <==> k == |chunks| - 1) {
        assert AudioAt(c, g, items[k], k);
        assert k + 1 < |chunks| ==> AudioAt(c, g, items[k + 1], k + 1);
      }
    }
  }

  // ---- The visible stream ----

  /** Before an announcement or the plan: nothing, or the final chunk of the segment before. */
  predicate Rested(prev: Option<Event>) {
    prev.None? || (prev.value.SegmentAudioReady? && prev.value.chunk.isFinal)
  }

  /** `prev` is what comes just before chunk number `k` of `g`. */
  predicate LeadsTo(prev: Option<Event>, g: Segment, k: nat) {
    if k == 0 then prev == Some(SegmentReady(g))
    else
      && prev.Some? && prev.value.SegmentAudioReady? && prev.value.segment == g
      && prev.value.chunk.index == k - 1 && !prev.value.chunk.isFinal
  }

  predicate MayFollow(c: Config, prev: Option<Event>, event: Event) {
    match event
    case SegmentReady(_) => Rested(prev)
    case UtteranceCompleted(_) => Rested(prev)
    case SegmentAudioReady(g, chunk) =>
      && chunk.index < |c.speech(g).chunks| && chunk == c.speech(g).chunks[chunk.index]
      && chunk.segmentId == c.idOf(g.sequence) && chunk.sequence == g.sequence
      && LeadsTo(prev, g, chunk.index)
  }

  function Previous(prev: Option<Event>, events: seq<Event>, i: nat): Option<Event>
    requires i < |events|
  {
    if i == 0 then prev else Some(events[i - 1])
  }

  /** After `prev`, every event stands in its place. */
  ghost predicate WellSpokenAfter(c: Config, prev: Option<Event>, events: seq<Event>) {
    forall i | 0 <= i < |events| :: MayFollow(c, Previous(prev, events, i), events[i])
  }

  lemma SpokenFirst(c: Config, prev: Option<Event>, event: Event, rest: seq<Event>)
    requires MayFollow(c, prev, event) && WellSpokenAfter(c, Some(event), rest)
    ensures WellSpokenAfter(c, prev, [event] + rest)
  {
    hide MayFollow;
    var all := [event] + rest;
    forall i | 0 <= i < |all| ensures MayFollow(c, Previous(prev, all, i), all[i]) {
      if i > 0 {
        assert MayFollow(c, Previous(Some(event), rest, i - 1), rest[i - 1]);
      }
    }
  }

  lemma {:induction false} PlaySpoken(c: Config, items: seq<ProductionItem>, i: nat, prev: Option<Event>)
    requires Rested(prev)
    ensures WellSpokenAfter(c, prev, Play(c, items, i).events)
    decreases |items| - i, 1, 0
  {
    hide AllAudio;
    if i < |items| {
      match items[i]
      case StageFailed(_) =>
      case ProductionFinished(plan) =>
        SpokenFirst(c, prev, UtteranceCompleted(plan), []);
        assert [UtteranceCompleted(plan)] + [] == [UtteranceCompleted(plan)];
      case Produced(g) =>
        PlayAudioSpoken(c, items, i, 0, Some(SegmentReady(g)));
        SpokenFirst(c, prev, SegmentReady(g), PlayAudio(c, items, i, AllAudio(c, g), 0).events);
    }
  }

  lemma {:induction false} PlayAudioSpoken(c: Config, items: seq<ProductionItem>, i: nat, j: nat, prev: Option<Event>)
    requires i < |items| && items[i].Produced?
    requires var g := items[i].segment;
      if j == 0 then prev == Some(SegmentReady(g))
      else j <= |AllAudio(c, g)| && AllAudio(c, g)[j - 1].Audio? && prev == Some(SegmentAudioReady(g, AllAudio(c, g)[j - 1].chunk))
    ensures WellSpokenAfter(c, prev, PlayAudio(c, items, i, AllAudio(c, items[i].segment), j).events)
    decreases |items| - i, 0, |AllAudio(c, items[i].segment)| - j
  {
    hide Speech, MayFollow, WellSpokenAfter;
    var g := items[i].segment;
    var audio := AllAudio(c, g);
    if j < |audio| {
      match audio[j]
      case SynthesisFailed(_) => SilenceSpoken(c, prev);
      case SynthesisFinished =>
        FinishedRests(c, g, j);
        PlaySpoken(c, items, i + 1, prev);
      case Audio(chunk) =>
        ChunkFollows(c, g, j, prev);
        PlayAudioSpoken(c, items, i, j + 1, Some(SegmentAudioReady(g, chunk)));
        SpokenFirst(c, prev, SegmentAudioReady(g, chunk), PlayAudio(c, items, i, audio, j + 1).events);
    } else {
      SilenceSpoken(c, prev);
    }
  }

  lemma SilenceSpoken(c: Config, prev: Option<Event>)
    ensures WellSpokenAfter(c, prev, [])
  {
  }

  lemma FinishedRests(c: Config, g: Segment, j: nat)
    requires j < |AllAudio(c, g)| && AllAudio(c, g)[j].SynthesisFinished?
    ensures j > 0 && AllAudio(c, g)[j - 1].Audio? && AllAudio(c, g)[j - 1].chunk.isFinal
  {
    hide Speech;
    SpeechOrdered(c, g, 0, false);
    SpeechIsNarration(c, g, 0, 0, false);
    assert AudioAt(c, g, AllAudio(c, g)[j - 1], j - 1);
  }

  lemma ChunkFollows(c: Config, g: Segment, j: nat, prev: Option<Event>)
    requires j < |AllAudio(c, g)| && AllAudio(c, g)[j].Audio?
    requires if j == 0 then prev == Some(SegmentReady(g))
             else AllAudio(c, g)[j - 1].Audio? && prev == Some(SegmentAudioReady(g, AllAudio(c, g)[j - 1].chunk))
    ensures MayFollow(c, prev, SegmentAudioReady(g, AllAudio(c, g)[j].chunk))
  {
    hide Speech;
    SpeechOrdered(c, g, 0, false);
    var audio := AllAudio(c, g);
    assert AudioAt(c, g, audio[j], j);
    assert j > 0 ==> AudioAt(c, g, audio[j - 1], j - 1);
  }

  /** Under every schedule: the audio after the announcement of a segment is that of its script, carries its
      identity and its number, and the indices 0, 1, 2 and so on; nothing follows a final chunk but the next
      announcement or the plan, and neither comes before the final chunk. */
  lemma VisibleIsWellSpoken(c: Config, steps: seq<Step>)
    requires ValidConfig(c) && Execute(c, steps).Some?
    ensures WellSpokenAfter(c, None, Execute(c, steps).value.visible)
  {
    hide Execute, Play, MayFollow, AllItems;
    Refinement(c, steps);
    PlaySpoken(c, AllItems(c), 0, None);
    var v, all := Execute(c, steps).value.visible, Sequential(c).events;
    forall i | 0 <= i < |v| ensures MayFollow(c, Previous(None, v, i), v[i]) {
      assert v[i] == all[i] && (i > 0 ==> v[i - 1] == all[i - 1]);
      assert MayFollow(c, Previous(None, all, i), all[i]);
    }
  }

  /** What comes after `event` in a run that goes on to its end. */
  predicate LeadsOn(event: Event, next: Event) {
    match event
    case SegmentReady(g) => next.SegmentAudioReady? && next.segment == g && next.chunk.index == 0
    case SegmentAudioReady(g, chunk) =>
      if chunk.isFinal then !next.SegmentAudioReady?
      else next.SegmentAudioReady? && next.segment == g && next.chunk.index == chunk.index + 1
    case UtteranceCompleted(_) => false
  }

  lemma FollowedRightly(c: Config, event: Event, next: Event)
    requires MayFollow(c, Some(event), next)
    ensures LeadsOn(event, next)
  {
  }

  /** In a finished run every announced segment has audio and its last chunk is final: the plan comes last,
      and before it each event is followed as `LeadsOn` says. */
  lemma EverySegmentIsSpoken(c: Config, steps: seq<Step>)
    requires ValidConfig(c) && Execute(c, steps).Some? && Execute(c, steps).value.publisher == Stopped(Outcome.Finished)
    ensures var v := Execute(c, steps).value.visible;
      && v != [] && v[|v| - 1].UtteranceCompleted?
      && forall i | 0 <= i < |v| - 1 :: LeadsOn(v[i], v[i + 1])
  {
    hide Execute, Play, MayFollow, LeadsOn;
    VisibleIsWellSpoken(c, steps);
    FinishedEndsInPlan(c, steps);
    var v := Execute(c, steps).value.visible;
    forall i | 0 <= i < |v| - 1 ensures LeadsOn(v[i], v[i + 1]) {
      assert MayFollow(c, Previous(None, v, i + 1), v[i + 1]);
      FollowedRightly(c, v[i], v[i + 1]);
    }
  }

  lemma FinishedEndsInPlan(c: Config, steps: seq<Step>)
    requires ValidConfig(c) && Execute(c, steps).Some? && Execute(c, steps).value.publisher == Stopped(Outcome.Finished)
    ensures var v := Execute(c, steps).value.visible; v != [] && v[|v| - 1].UtteranceCompleted?
  {
    hide Execute, Play, Stream;
    Refinement(c, steps);
    StreamIsProduction(c, 0, Assembly([], []), None);
    PlayAnnounces(c, AllItems(c), 0);
  }

  // ---- Numbers ----

  predicate NumberedFrom(segments: seq<Segment>, n: nat) {
    forall k | 0 <= k < |segments| :: segments[k].sequence == n + k
  }

  lemma NumberedConcat(a: seq<Segment>, b: seq<Segment>, n: nat)
    requires NumberedFrom(a, n) && NumberedFrom(b, n + |a|)
    ensures NumberedFrom(a + b, n)
  {
  }

  lemma NumberedSlice(segments: seq<Segment>, n: nat)
    requires WellNumbered(segments) && n <= |segments|
    ensures NumberedFrom(segments[n..], n)
  {
  }

  lemma {:induction false} StreamNumbered(c: Config, next: nat, asm: Assembly, completion: Option<Completion>)
    requires ValidConfig(c) && Settled(asm, c.maxSegmentChars)
    ensures NumberedFrom(SegmentsFrom(Stream(c, next, asm, completion), 0), |asm.segments|)
    decreases |c.modelEvents| - next
  {
    hide Pushed, Assembler.Finished, SegmentsFrom, ItemsOf, Settled;
    if next >= |c.modelEvents| {
      if c.modelEnd.Ends? {
        var done := Assembler.Finished(asm);
        FinishedNumbered(c, asm);
        NumberedItems(asm, done, [FinishedItem(done, completion)]);
      } else {
        NoSegments(StageFailed(c.modelEnd.error));
      }
    } else {
      match c.modelEvents[next]
      case TextDelta(text) =>
        var pushed := Pushed(asm, text, c.maxSegmentChars);
        PushKeeps(asm, text, c.maxSegmentChars);
        StreamNumbered(c, next + 1, pushed, completion);
        SettledNumbered(pushed, c.maxSegmentChars);
        NumberedItems(asm, pushed, Stream(c, next + 1, pushed, completion));
      case Completed(done) =>
        if completion.None? { StreamNumbered(c, next + 1, asm, Some(done)); } else { NoSegments(StageFailed(DuplicateCompletion)); }
      case Unsupported => NoSegments(StageFailed(UnsupportedModelEvent));
    }
  }

  lemma SettledNumbered(asm: Assembly, max: nat)
    requires Settled(asm, max)
    ensures WellNumbered(asm.segments)
  {
  }

  lemma FinishedNumbered(c: Config, asm: Assembly)
    requires ValidConfig(c) && Settled(asm, c.maxSegmentChars)
    ensures WellNumbered(Assembler.Finished(asm).segments) && asm.segments <= Assembler.Finished(asm).segments
    ensures SegmentsFrom([FinishedItem(Assembler.Finished(asm), None)], 0) == []
  {
    FinishKeeps(asm, c.maxSegmentChars);
    NoSegments(FinishedItem(Assembler.Finished(asm), None));
  }

  lemma NumberedItems(asm: Assembly, later: Assembly, rest: seq<ProductionItem>)
    requires asm.segments <= later.segments && WellNumbered(later.segments)
    requires NumberedFrom(SegmentsFrom(rest, 0), |later.segments|) || (|rest| == 1 && !rest[0].Produced?)
    ensures NumberedFrom(SegmentsFrom(ItemsOf(later.segments[|asm.segments|..]) + rest, 0), |asm.segments|)
  {
    hide SegmentsFrom, ItemsOf, WellNumbered;
    var n := |asm.segments|;
    var made := later.segments[n..];
    SegmentsFromItems(made, rest, 0);
    assert made[0..] == made;
    NumberedSlice(later.segments, n);
    if |rest| == 1 && !rest[0].Produced? {
      assert rest == [rest[0]];
      NoSegments(rest[0]);
    }
    NumberedConcat(made, SegmentsFrom(rest, 0), n);
  }

  lemma {:induction false} PlayAnnouncesInOrder(c: Config, items: seq<ProductionItem>, i: nat)
    ensures Announced(Play(c, items, i).events) <= SegmentsFrom(items, i)
    decreases |items| - i, 1, 0
  {
    hide AllAudio;
    if i < |items| {
      match items[i]
      case StageFailed(_) =>
      case ProductionFinished(plan) => AnnouncedFirst(UtteranceCompleted(plan), []);
      case Produced(g) =>
        PlayAudioAnnouncesInOrder(c, items, i, AllAudio(c, g), 0);
        AnnouncedFirst(SegmentReady(g), PlayAudio(c, items, i, AllAudio(c, g), 0).events);
    }
  }

  lemma {:induction false} PlayAudioAnnouncesInOrder(c: Config, items: seq<ProductionItem>, i: nat, audio: seq<AudioItem>, j: nat)
    requires i < |items| && items[i].Produced?
    ensures Announced(PlayAudio(c, items, i, audio, j).events) <= SegmentsFrom(items, i + 1)
    decreases |items| - i, 0, |audio| - j
  {
    if j < |audio| {
      match audio[j]
      case SynthesisFailed(_) =>
      case SynthesisFinished => PlayAnnouncesInOrder(c, items, i + 1);
      case Audio(chunk) =>
        PlayAudioAnnouncesInOrder(c, items, i, audio, j + 1);
        AnnouncedFirst(SegmentAudioReady(items[i].segment, chunk), PlayAudio(c, items, i, audio, j + 1).events);
    }
  }

  lemma {:induction false} AnnouncedPrefix(a: seq<Event>, b: seq<Event>)
    requires a <= b
    ensures Announced(a) <= Announced(b)
  {
    if a != [] {
      AnnouncedPrefix(a[1..], b[1..]);
    }
  }

  /** Under every schedule segments are announced in the order 0, 1, 2 and so on. */
  lemma AnnouncedInOrder(c: Config, steps: seq<Step>)
    requires ValidConfig(c) && Execute(c, steps).Some?
    ensures NumberedFrom(Announced(Execute(c, steps).value.visible), 0)
  {
    hide Execute, Play, Stream, Announced, SegmentsFrom;
    Refinement(c, steps);
    AnnouncedPrefix(Execute(c, steps).value.visible, Sequential(c).events);
    PlayAnnouncesInOrder(c, AllItems(c), 0);
    EmptySettled(c.maxSegmentChars);
    StreamNumbered(c, 0, Assembly([], []), None);
  }

  // ---- When a dialogue finishes ----

  function Completions(events: seq<ModelEvent>, next: nat): seq<Completion>
    decreases |events| - next
  {
    if next >= |events| then []
    else (if events[next].Completed? then [events[next].completion] else []) + Completions(events, next + 1)
  }

  /** What the model must yield: only events the pipeline knows, at most one completion, and a clean end. */
  predicate ProperModel(c: Config, next: nat) {
    && c.modelEnd.Ends?
    && (forall i | next <= i < |c.modelEvents| :: !c.modelEvents[i].Unsupported?)
    && |Completions(c.modelEvents, next)| <= 1
  }

  /** The completion reported: the model's own, or the default. */
  function Reported(completions: seq<Completion>): Completion {
    if completions == [] then DEFAULT_COMPLETION else completions[0]
  }

  function Known(completion: Option<Completion>): seq<Completion> {
    if completion.Some? then [completion.value] else []
  }

  predicate AllKnown(events: seq<ModelEvent>, next: nat) {
    forall i | next <= i < |events| :: !events[i].Unsupported?
  }

  /** `last` is how a production that starts at model event `next` ends. */
  predicate EndsRight(c: Config, next: nat, completion: Option<Completion>, last: ProductionItem) {
    var all := Known(completion) + Completions(c.modelEvents, next);
    && (last.ProductionFinished? <==> c.modelEnd.Ends? && AllKnown(c.modelEvents, next) && |all| <= 1)
    && (last.ProductionFinished? ==> last.plan.completion == Reported(all))
  }

  lemma EndsRightLater(c: Config, next: nat, completion: Option<Completion>, last: ProductionItem)
    requires next < |c.modelEvents|
    ensures c.modelEvents[next].TextDelta? && EndsRight(c, next + 1, completion, last) ==> EndsRight(c, next, completion, last)
    ensures c.modelEvents[next].Completed? && completion.None? && EndsRight(c, next + 1, Some(c.modelEvents[next].completion), last)
      ==> EndsRight(c, next, completion, last)
    ensures (c.modelEvents[next].Unsupported? || (c.modelEvents[next].Completed? && completion.Some?)) && last.StageFailed?
      ==> EndsRight(c, next, completion, last)
  {
    var e, rest := c.modelEvents[next], Completions(c.modelEvents, next + 1);
    assert AllKnown(c.modelEvents, next) <==> !e.Unsupported? && AllKnown(c.modelEvents, next + 1);
    hide AllKnown;
    assert Completions(c.modelEvents, next) == (if e.Completed? then [e.completion] else []) + rest;
    hide Completions;
    if e.Completed? && completion.None? {
      assert Known(completion) + ([e.completion] + rest) == [e.completion] + rest;
    } else if !e.Completed? {
      assert Known(completion) + ([] + rest) == Known(completion) + rest;
    }
  }

  lemma EndsRightHere(c: Config, next: nat, completion: Option<Completion>, last: ProductionItem)
    requires next >= |c.modelEvents|
    requires if c.modelEnd.Ends? then last.ProductionFinished? && last.plan.completion == Reported(Known(completion)) else last.StageFailed?
    ensures EndsRight(c, next, completion, last)
  {
    assert Known(completion) + [] == Known(completion);
  }

  lemma {:induction false} StreamFinishes(c: Config, next: nat, asm: Assembly, completion: Option<Completion>)
    requires ValidConfig(c)
    ensures var items := Stream(c, next, asm, completion); EndsRight(c, next, completion, items[|items| - 1])
    decreases |c.modelEvents| - next
  {
    hide Pushed, Assembler.Finished, ItemsOf, EndsRight;
    var items := Stream(c, next, asm, completion);
    var last := items[|items| - 1];
    if next < |c.modelEvents| {
      EndsRightLater(c, next, completion, last);
      match c.modelEvents[next]
      case TextDelta(text) => StreamFinishes(c, next + 1, Pushed(asm, text, c.maxSegmentChars), completion);
      case Completed(done) =>
        if completion.None? { StreamFinishes(c, next + 1, asm, Some(done)); }
      case Unsupported =>
    } else {
      EndsRightHere(c, next, completion, last);
    }
  }

  lemma {:induction false} PlayFinishes(c: Config, items: seq<ProductionItem>, i: nat)
    requires Production(items) && i < |items|
    ensures Play(c, items, i).outcome.Finished? <==>
      && items[|items| - 1].ProductionFinished?
      && forall k | i <= k < |items| && items[k].Produced? :: ProperSpeech(c, items[k].segment)
    decreases |items| - i
  {
    hide Speech, ProperSpeech;
    if items[i].Produced? {
      var g := items[i].segment;
      CleanExactly(c, g);
      SpeechIsNarration(c, g, 0, 0, false);
      PlayFinishes(c, items, i + 1);
      NarrationFinishes(c, items, i, AllAudio(c, g), 0);
    }
  }

  lemma {:induction false} NarrationFinishes(c: Config, items: seq<ProductionItem>, i: nat, audio: seq<AudioItem>, j: nat)
    requires i < |items| && items[i].Produced? && Narration(audio) && j < |audio|
    ensures PlayAudio(c, items, i, audio, j).outcome.Finished? <==>
      audio[|audio| - 1].SynthesisFinished? && Play(c, items, i + 1).outcome.Finished?
    decreases |audio| - j
  {
    hide Play;
    if j < |audio| - 1 {
      NarrationFinishes(c, items, i, audio, j + 1);
    }
  }

  /** Left alone, a dialogue finishes exactly when the model's stream is proper and every segment made of it
      is properly spoken; its plan then carries the model's completion. */
  lemma FinishesExactly(c: Config, steps: seq<Step>)
    requires ValidConfig(c) && Execute(c, steps).Some?
    requires forall i :: 0 <= i < |steps| ==> !External(steps[i])
    requires forall step :: Enabled(c, Execute(c, steps).value, step) ==> External(step)
    ensures var s := Execute(c, steps).value; var items := AllItems(c);
      && (s.publisher == Stopped(Outcome.Finished) <==>
            ProperModel(c, 0) && forall k | 0 <= k < |items| && items[k].Produced? :: ProperSpeech(c, items[k].segment))
      && (s.publisher == Stopped(Outcome.Finished) ==>
            && s.visible != [] && s.visible[|s.visible| - 1].UtteranceCompleted?
            && s.visible[|s.visible| - 1].plan.completion == Reported(Completions(c.modelEvents, 0)))
  {
    hide Execute, Enabled, Play, Stream, ProperSpeech, Completions;
    UndisturbedRunsMatch(c, steps);
    var items := AllItems(c);
    StreamIsProduction(c, 0, Assembly([], []), None);
    StreamFinishes(c, 0, Assembly([], []), None);
    assert Known(None) + Completions(c.modelEvents, 0) == Completions(c.modelEvents, 0);
    PlayFinishes(c, items, 0);
    if Execute(c, steps).value.publisher == Stopped(Outcome.Finished) {
      PlayAnnounces(c, items, 0);
    }
  }

  // ---- Why a dialogue fails ----

  /** After `n` good chunks the synthesis of `g` fails with `e`: the next chunk does not belong where it is, or
      the provider stopped too early. */
  predicate FailsFor(c: Config, g: Segment, n: nat, e: Error) {
    var script := c.speech(g);
    var chunks := script.chunks;
    if n < |chunks| then
      var chunk, done := chunks[n], n > 0 && chunks[n - 1].isFinal;
      || (e == AudioAfterFinal && done)
      || (e == WrongSegmentId && !done && chunk.segmentId != c.idOf(g.sequence))
      || (e == WrongSegmentSequence && !done && chunk.segmentId == c.idOf(g.sequence) && chunk.sequence != g.sequence)
      || (e == WrongChunkIndex && !done && chunk.segmentId == c.idOf(g.sequence) && chunk.sequence == g.sequence && chunk.index != n)
    else
      && n == |chunks|
      && match script.end
         case Raises(error) => e == error
         case Ends => if n == 0 then e == NoAudio else e == NoFinalChunk && !chunks[n - 1].isFinal
  }

  /** A synthesis puts the chunks of its script up to the first fault, and names that fault. */
  lemma {:induction false} FailureIsNamed(c: Config, g: Segment, next: nat, sawFinal: bool)
    requires next <= |c.speech(g).chunks|
    requires if next == 0 then !sawFinal else sawFinal == c.speech(g).chunks[next - 1].isFinal
    ensures var items := Speech(c, g, next, next, sawFinal); var n := |items| - 1;
      items[n].SynthesisFailed? ==> FailsFor(c, g, next + n, items[n].error)
    decreases |c.speech(g).chunks| - next
  {
    var chunks := c.speech(g).chunks;
    if next < |chunks| && ChunkFault(c, g, chunks[next], next, sawFinal).None? {
      FailureIsNamed(c, g, next + 1, chunks[next].isFinal);
    }
  }

  function LastOf(prev: Option<Event>, events: seq<Event>): Option<Event> {
    if events == [] then prev else Some(events[|events| - 1])
  }

  lemma LastOfMore(prev: Option<Event>, event: Event, rest: seq<Event>)
    ensures LastOf(prev, [event] + rest) == LastOf(Some(event), rest)
  {
  }

  /** `e` is what stopped a dialogue that last showed `last`: a fault in the speech of that segment, or, where
      the next segment was due, a fault of the model. */
  predicate Blamed(c: Config, last: Option<Event>, model: ProductionItem, e: Error) {
    || (Rested(last) && model == StageFailed(e))
    || match last
       case Some(SegmentReady(g)) => FailsFor(c, g, 0, e)
       case Some(SegmentAudioReady(g, chunk)) => FailsFor(c, g, chunk.index + 1, e)
       case _ => false
  }

  lemma {:induction false} PlayBlames(c: Config, items: seq<ProductionItem>, i: nat, prev: Option<Event>)
    requires Production(items) && Rested(prev) && i < |items|
    ensures var t := Play(c, items, i);
      t.outcome.Raised? ==> Blamed(c, LastOf(prev, t.events), items[|items| - 1], t.outcome.error)
    decreases |items| - i, 1, 0
  {
    hide Speech, FailsFor;
    match items[i]
    case StageFailed(_) =>
    case ProductionFinished(_) =>
    case Produced(g) =>
      PlayAudioBlames(c, items, i, 0, Some(SegmentReady(g)));
      LastOfMore(prev, SegmentReady(g), PlayAudio(c, items, i, AllAudio(c, g), 0).events);
  }

  lemma {:induction false} PlayAudioBlames(c: Config, items: seq<ProductionItem>, i: nat, j: nat, prev: Option<Event>)
    requires Production(items) && i < |items| && items[i].Produced?
    requires j < |AllAudio(c, items[i].segment)|
    requires var g := items[i].segment;
      if j == 0 then prev == Some(SegmentReady(g))
      else AllAudio(c, g)[j - 1].Audio? && prev == Some(SegmentAudioReady(g, AllAudio(c, g)[j - 1].chunk))
    ensures var t := PlayAudio(c, items, i, AllAudio(c, items[i].segment), j);
      t.outcome.Raised? ==> Blamed(c, LastOf(prev, t.events), items[|items| - 1], t.outcome.error)
    decreases |items| - i, 0, |AllAudio(c, items[i].segment)| - j
  {
    hide Speech, FailsFor, Blamed, LastOf;
    var g := items[i].segment;
    var audio := AllAudio(c, g);
    SpeechIsNarration(c, g, 0, 0, false);
    match audio[j]
    case SynthesisFailed(_) => FailedAfter(c, g, j, prev, items[|items| - 1]);
    case SynthesisFinished =>
      FinishedRests(c, g, j);
      PlayBlames(c, items, i + 1, prev);
    case Audio(chunk) =>
      PlayAudioBlames(c, items, i, j + 1, Some(SegmentAudioReady(g, chunk)));
      LastOfMore(prev, SegmentAudioReady(g, chunk), PlayAudio(c, items, i, audio, j + 1).events);
  }

  lemma FailedAfter(c: Config, g: Segment, j: nat, prev: Option<Event>, model: ProductionItem)
    requires j < |AllAudio(c, g)| && AllAudio(c, g)[j].SynthesisFailed?
    requires if j == 0 then prev == Some(SegmentReady(g))
             else AllAudio(c, g)[j - 1].Audio? && prev == Some(SegmentAudioReady(g, AllAudio(c, g)[j - 1].chunk))
    ensures Blamed(c, LastOf(prev, []), model, AllAudio(c, g)[j].error)
  {
    hide Speech, FailsFor;
    SpeechOrdered(c, g, 0, false);
    SpeechIsNarration(c, g, 0, 0, false);
    FailureIsNamed(c, g, 0, false);
    assert j > 0 ==> AudioAt(c, g, AllAudio(c, g)[j - 1], j - 1);
  }

  function CompletionsBetween(events: seq<ModelEvent>, from: nat, to: nat): nat
    requires from <= to <= |events|
    decreases |events| - from
  {
    if from == to then 0 else (if events[from].Completed? then 1 else 0) + CompletionsBetween(events, from + 1, to)
  }

  /** The model, with `known` completions before event `next`, is at fault at event `i` or at its end. */
  predicate AtFault(c: Config, next: nat, known: nat, i: nat, e: Error) {
    var events := c.modelEvents;
    && next <= i <= |events| && (forall k | next <= k < i :: !events[k].Unsupported?)
    && var completions := known + CompletionsBetween(events, next, i);
       && completions <= 1
       && if i == |events| then c.modelEnd == Raises(e)
          else || (events[i].Unsupported? && e == UnsupportedModelEvent)
               || (events[i].Completed? && completions == 1 && e == DuplicateCompletion)
  }

  lemma {:induction false} ModelIsBlamed(c: Config, next: nat, asm: Assembly, completion: Option<Completion>) returns (i: nat)
    requires ValidConfig(c) && next <= |c.modelEvents|
    ensures var items := Stream(c, next, asm, completion); var last := items[|items| - 1];
      last.StageFailed? ==> AtFault(c, next, |Known(completion)|, i, last.error)
    decreases |c.modelEvents| - next
  {
    hide Pushed, Assembler.Finished, ItemsOf;
    i := next;
    if next < |c.modelEvents| {
      match c.modelEvents[next]
      case TextDelta(text) => i := ModelIsBlamed(c, next + 1, Pushed(asm, text, c.maxSegmentChars), completion);
      case Completed(done) =>
        if completion.None? { i := ModelIsBlamed(c, next + 1, asm, Some(done)); }
      case Unsupported =>
    }
  }

  /** Under every schedule: a run that failed while it was live names the first fault, of the segment it was
      speaking when it stopped, or of the model when the next segment was due. */
  lemma FailureNamesItsCause(c: Config, steps: seq<Step>) returns (i: nat)
    requires ValidConfig(c) && Execute(c, steps).Some?
    requires var s := Execute(c, steps).value; s.live && s.publisher.Stopped? && s.publisher.outcome.Raised?
    ensures var s := Execute(c, steps).value; var last := LastOf(None, s.visible); var e := s.publisher.outcome.error;
      || (Rested(last) && AtFault(c, 0, 0, i, e))
      || (last.Some? && last.value.SegmentReady? && FailsFor(c, last.value.segment, 0, e))
      || (last.Some? && last.value.SegmentAudioReady? && FailsFor(c, last.value.segment, last.value.chunk.index + 1, e))
  {
    hide Execute, Play, Stream, FailsFor, AtFault;
    Refinement(c, steps);
    StreamIsProduction(c, 0, Assembly([], []), None);
    i := ModelIsBlamed(c, 0, Assembly([], []), None);
    PlayBlames(c, AllItems(c), 0, None);
  }
}
