/** From model text to published plan: a finished dialogue says what the model said. */
module PipelineText {
  import opened Text
  import opened Assembler
  import opened Pipeline
  import opened PipelineInvariant
  import opened PipelineTheorems

  /** The segments a stream of visible events announces. */
  function Announced(events: seq<Event>): seq<Segment> {
    if events == [] then []
    else (if events[0].SegmentReady? then [events[0].segment] else []) + Announced(events[1..])
  }

  /** The segments among `items[i..]`. */
  function SegmentsFrom(items: seq<ProductionItem>, i: nat): seq<Segment>
    decreases |items| - i
  {
    if i >= |items| then []
    else (if items[i].Produced? then [items[i].segment] else []) + SegmentsFrom(items, i + 1)
  }

  /** The text the model streamed, in order. */
  function ModelText(events: seq<ModelEvent>, next: nat): string
    decreases |events| - next
  {
    if next >= |events| then []
    else (if events[next].TextDelta? then events[next].text else []) + ModelText(events, next + 1)
  }

  lemma AnnouncedFirst(event: Event, events: seq<Event>)
    ensures Announced([event] + events)
         == (if event.SegmentReady? then [event.segment] else []) + Announced(events)
  {
    assert ([event] + events)[1..] == events;
  }

  /** A finished play announces every segment and then publishes the plan. */
  lemma {:induction false} PlayAnnounces(c: Config, items: seq<ProductionItem>, i: nat)
    requires Production(items) && i < |items| && Play(c, items, i).outcome.Finished?
    ensures items[|items| - 1].ProductionFinished?
    ensures var events := Play(c, items, i).events;
            && Announced(events) == SegmentsFrom(items, i)
            && events != []
            && events[|events| - 1] == UtteranceCompleted(items[|items| - 1].plan)
    decreases |items| - i, 1, 0
  {
    hide AllAudio;
    if items[i].Produced? {
      var audio := AllAudio(c, items[i].segment);
      PlayAudioAnnounces(c, items, i, audio, 0);
      AnnouncedFirst(SegmentReady(items[i].segment), PlayAudio(c, items, i, audio, 0).events);
    } else {
      assert SegmentsFrom(items, i + 1) == [];
      AnnouncedFirst(UtteranceCompleted(items[i].plan), []);
    }
  }

  lemma {:induction false} PlayAudioAnnounces(c: Config, items: seq<ProductionItem>, i: nat, audio: seq<AudioItem>, j: nat)
    requires Production(items) && i < |items| - 1 && items[i].Produced?
    requires PlayAudio(c, items, i, audio, j).outcome.Finished?
    ensures items[|items| - 1].ProductionFinished?
    ensures var events := PlayAudio(c, items, i, audio, j).events;
            && Announced(events) == SegmentsFrom(items, i + 1)
            && events != []
            && events[|events| - 1] == UtteranceCompleted(items[|items| - 1].plan)
    decreases |items| - i, 0, |audio| - j
  {
    hide SegmentsFrom, Play, AllAudio;
    match audio[j]
    case SynthesisFinished => PlayAnnounces(c, items, i + 1);
    case Audio(chunk) =>
      PlayAudioAnnounces(c, items, i, audio, j + 1);
      AnnouncedFirst(SegmentAudioReady(items[i].segment, chunk), PlayAudio(c, items, i, audio, j + 1).events);
    case SynthesisFailed(_) =>
  }

  lemma {:induction false} SegmentsFromItems(segments: seq<Segment>, rest: seq<ProductionItem>, i: nat)
    requires i <= |segments|
    ensures SegmentsFrom(ItemsOf(segments) + rest, i) == segments[i..] + SegmentsFrom(rest, 0)
    decreases |segments| - i
  {
    if i < |segments| {
      SegmentsFromItems(segments, rest, i + 1);
      assert segments[i..] == [segments[i]] + segments[i + 1..];
    } else {
      SegmentsFromShift(ItemsOf(segments), rest, 0);
      assert segments[i..] == [];
    }
  }

  lemma SegmentsFromStep(items: seq<ProductionItem>, i: nat)
    ensures i >= |items| ==> SegmentsFrom(items, i) == []
    ensures i < |items| ==>
      SegmentsFrom(items, i) == (if items[i].Produced? then [items[i].segment] else []) + SegmentsFrom(items, i + 1)
  {
  }

  lemma {:induction false} SegmentsFromShift(front: seq<ProductionItem>, rest: seq<ProductionItem>, i: nat)
    requires i <= |rest|
    ensures SegmentsFrom(front + rest, |front| + i) == SegmentsFrom(rest, i)
    decreases |rest| - i
  {
    hide SegmentsFrom;
    var all, k := front + rest, |front| + i;
    SegmentsFromStep(all, k);
    SegmentsFromStep(rest, i);
    if i < |rest| {
      assert all[k] == rest[i];
      SegmentsFromShift(front, rest, i + 1);
    }
  }

  /** If `items` end in a plan, it lists the segments of `asm` and of `items`, and together they say
      what `asm` holds and then what is left of the model's text. */
  ghost predicate PlanSays(c: Config, next: nat, asm: Assembly, items: seq<ProductionItem>) {
    && items != []
    && var last := items[|items| - 1];
       last.ProductionFinished? ==>
         && last.plan.segments == asm.segments + SegmentsFrom(items, 0)
         && SpokenText(last.plan.segments) == Content(asm) + Squeeze(ModelText(c.modelEvents, next))
         && WellNumbered(last.plan.segments)
  }

  /** The plan at the end of an uncancelled production lists exactly the produced segments, and they
      say exactly what is left of the model's text. */
  lemma {:induction false} StreamPlan(c: Config, next: nat, asm: Assembly, completion: Option<Completion>)
    requires ValidConfig(c) && Settled(asm, c.maxSegmentChars)
    ensures PlanSays(c, next, asm, Stream(c, next, asm, completion))
    decreases |c.modelEvents| - next
  {
    hide Pushed, Assembler.Finished, Squeeze, Content, SpokenText, SegmentsFrom, ItemsOf, Settled;
    if next >= |c.modelEvents| {
      StreamPlanEnd(c, asm, completion);
    } else {
      match c.modelEvents[next]
      case TextDelta(text) =>
        PushKeeps(asm, text, c.maxSegmentChars);
        var pushed := Pushed(asm, text, c.maxSegmentChars);
        StreamPlan(c, next + 1, pushed, completion);
        DeltaPlan(c, next, asm, pushed, Stream(c, next + 1, pushed, completion));
      case Completed(done) =>
        if completion.None? { StreamPlan(c, next + 1, asm, Some(done)); }
        assert [] + ModelText(c.modelEvents, next + 1) == ModelText(c.modelEvents, next + 1);
      case Unsupported =>
    }
  }

  lemma StreamPlanEnd(c: Config, asm: Assembly, completion: Option<Completion>)
    requires ValidConfig(c) && Settled(asm, c.maxSegmentChars)
    ensures var done := Assembler.Finished(asm);
            var items := ItemsOf(done.segments[|asm.segments|..]) + [FinishedItem(done, completion)];
            && done.segments == asm.segments + SegmentsFrom(items, 0)
            && SpokenText(done.segments) == Content(asm) + Squeeze([])
            && WellNumbered(done.segments)
  {
    hide Squeeze, SpokenText, Strip, SegmentsFrom, WellNumbered;
    var done := Assembler.Finished(asm);
    var made := done.segments[|asm.segments|..];
    FinishKeeps(asm, c.maxSegmentChars);
    SqueezeBlank([]);
    SegmentsFromItems(made, [FinishedItem(done, completion)], 0);
    assert SegmentsFrom([FinishedItem(done, completion)], 0) == [] by { NoSegments(FinishedItem(done, completion)); }
    assert done.segments == asm.segments + made;
  }

  lemma NoSegments(item: ProductionItem)
    requires !item.Produced?
    ensures SegmentsFrom([item], 0) == []
  {
    assert SegmentsFrom([item], 1) == [];
  }

  lemma DeltaPlan(c: Config, next: nat, asm: Assembly, pushed: Assembly, rest: seq<ProductionItem>)
    requires next < |c.modelEvents| && c.modelEvents[next].TextDelta?
    requires asm.segments <= pushed.segments
    requires Content(pushed) == Content(asm) + Squeeze(c.modelEvents[next].text)
    requires PlanSays(c, next + 1, pushed, rest)
    ensures PlanSays(c, next, asm, ItemsOf(pushed.segments[|asm.segments|..]) + rest)
  {
    hide Squeeze, Content, SpokenText, SegmentsFrom, WellNumbered, ItemsOf;
    var made := pushed.segments[|asm.segments|..];
    SegmentsFromItems(made, rest, 0);
    assert made[0..] == made;
    assert asm.segments + made == pushed.segments;
    SqueezeConcat(c.modelEvents[next].text, ModelText(c.modelEvents, next + 1));
  }

  /** A dialogue that finished announced exactly the segments of its plan, in order and numbered from
      zero, and those segments say exactly the model's text, whitespace aside. */
  lemma FinishedDialogueSaysTheText(c: Config, steps: seq<Step>)
    requires ValidConfig(c) && Execute(c, steps).Some?
    requires Execute(c, steps).value.publisher == Stopped(Outcome.Finished)
    ensures var shown := Execute(c, steps).value.visible;
            && shown != [] && shown[|shown| - 1].UtteranceCompleted?
            && Announced(shown) == shown[|shown| - 1].plan.segments
            && WellNumbered(Announced(shown))
            && SpokenText(Announced(shown)) == Squeeze(ModelText(c.modelEvents, 0))
  {
    hide Execute, Play, Stream, SpokenText, Squeeze, ModelText, WellNumbered, SegmentsFrom, Announced;
    Refinement(c, steps);
    var items, empty := AllItems(c), Assembly([], []);
    StreamIsProduction(c, 0, empty, None);
    PlayAnnounces(c, items, 0);
    assert Settled(empty, c.maxSegmentChars) by { EmptySettled(c.maxSegmentChars); }
    StreamPlan(c, 0, empty, None);
    assert Content(empty) == [] by { EmptySettled(c.maxSegmentChars); }
  }

  lemma EmptySettled(max: nat)
    requires max >= MIN_SEGMENT_CHARS
    ensures Settled(Assembly([], []), max) && Content(Assembly([], [])) == []
  {
  }
}
