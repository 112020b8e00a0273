/** The dialogue pipeline as a transition system: a model producer, a synthesis dispatcher, a
    bounded set of synthesis tasks and one publisher, joined by bounded queues and a semaphore.
    Providers follow scripts, and any enabled task may take the next step. */
module Pipeline {
  import opened Text
  import opened Assembler

  // ---- Provider scripts and configuration ----

  datatype Error =
    | Provider(code: int)
    | Cancelled
    | DuplicateCompletion
    | UnsupportedModelEvent
    | AudioAfterFinal
    | WrongSegmentId
    | WrongSegmentSequence
    | WrongChunkIndex
    | NoAudio
    | NoFinalChunk

  datatype Completion = Completion(stopReason: string, inputTokens: Option<nat>, outputTokens: Option<nat>)

  const DEFAULT_COMPLETION := Completion("complete", None, None)

  datatype ModelEvent = TextDelta(text: string) | Completed(completion: Completion) | Unsupported

  datatype StreamEnd = Ends | Raises(error: Error)

  datatype Chunk = Chunk(segmentId: int, sequence: nat, index: nat, isFinal: bool, audio: seq<bv8>)

  datatype SpeechScript = SpeechScript(chunks: seq<Chunk>, end: StreamEnd)

  /** `idOf` is the identifier drawn for each segment number; `speech` is what the synthesizer
      yields for a segment. */
  datatype Config = Config(
    maxSegmentChars: nat,
    segmentCapacity: nat,
    maxConcurrent: nat,
    audioCapacity: nat,
    modelEvents: seq<ModelEvent>,
    modelEnd: StreamEnd,
    idOf: nat -> int,
    speech: Segment -> SpeechScript)

  /** What the constructor of the pipeline (and of its assembler) insists on. */
  ghost predicate ValidConfig(c: Config) {
    && c.maxSegmentChars >= MIN_SEGMENT_CHARS
    && c.segmentCapacity > 0 && c.maxConcurrent > 0 && c.audioCapacity > 0
  }

  // ---- Queue items, visible events ----

  datatype Plan = Plan(segments: seq<Segment>, completion: Completion)

  datatype ProductionItem =
    | Produced(segment: Segment)
    | ProductionFinished(plan: Plan)
    | StageFailed(error: Error)

  /** A job is named by its position in `State.jobs`. */
  datatype OutputItem = JobItem(job: nat) | LastItem(item: ProductionItem)

  datatype AudioItem = Audio(chunk: Chunk) | SynthesisFinished | SynthesisFailed(error: Error)

  datatype Event =
    | SegmentReady(segment: Segment)
    | SegmentAudioReady(segment: Segment, chunk: Chunk)
    | UtteranceCompleted(plan: Plan)

  datatype Outcome = Finished | Raised(error: Error) | Abandoned

  // ---- Task states ----

  datatype Producer =
    | Streaming(next: nat, pending: seq<Segment>, asm: Assembly, completion: Option<Completion>)
    | Flushing(pending: seq<Segment>, asm: Assembly, completion: Option<Completion>)
    | Putting(item: ProductionItem)
    | ProducerDone

  datatype Dispatcher =
    | Fetching
    | Acquiring(segment: Segment)
    | PuttingJob(segment: Segment)
    | PuttingLast(item: ProductionItem)
    | DispatcherDone

  datatype Task =
    | Pulling(next: nat, expected: nat, sawFinal: bool)
    | Holding(item: AudioItem, next: nat, expected: nat, sawFinal: bool)
    | TaskDone

  /** `taken` counts the audio items the publisher has removed from the job's queue. */
  datatype Job = Job(segment: Segment, audio: seq<AudioItem>, task: Task, taken: nat)

  datatype Publisher =
    | AwaitOutput
    | HoldOutput(item: OutputItem)
    | AwaitAudio(job: nat)
    | HoldAudio(job: nat, audio: AudioItem)
    | AwaitTasks(plan: Plan)
    | Stopped(outcome: Outcome)

  /** `taken` counts the jobs the publisher has removed from the output queue; `live` is what
      `_check_active` tests, and `tokenCancelled` what interrupts a waiting publisher. */
  datatype State = State(
    producer: Producer,
    segments: seq<ProductionItem>,
    dispatcher: Dispatcher,
    slots: nat,
    output: seq<OutputItem>,
    jobs: seq<Job>,
    publisher: Publisher,
    taken: nat,
    visible: seq<Event>,
    live: bool,
    tokenCancelled: bool)

  function Init(c: Config): State {
    State(Streaming(0, [], Assembly([], []), None), [], Fetching, c.maxConcurrent, [], [],
          AwaitOutput, 0, [], true, false)
  }

  // ---- Steps ----

  datatype Step =
    | ProducerPull | ProducerPut
    | DispatcherGet | DispatcherAcquire | DispatcherPut
    | SynthesisPull(job: nat) | SynthesisPut(job: nat)
    | PublisherGet | PublisherHandle | PublisherInterrupted
    | Supersede | CancelToken | Abandon

  /** The steps taken by the world outside the pipeline. */
  predicate External(step: Step) {
    step.Supersede? || step.CancelToken? || step.Abandon?
  }

  predicate Enabled(c: Config, s: State, step: Step) {
    && !s.publisher.Stopped?
    && match step
       case ProducerPull => ProducerMayPull(c, s.producer)
       case ProducerPut => ProducerMayPut(s.producer) && |s.segments| < c.segmentCapacity
       case DispatcherGet => s.dispatcher.Fetching? && s.segments != []
       case DispatcherAcquire => s.dispatcher.Acquiring? && s.slots > 0
       case DispatcherPut =>
         && (s.dispatcher.PuttingJob? || s.dispatcher.PuttingLast?)
         && |s.output| < c.maxConcurrent + 1
       case SynthesisPull(k) => k < |s.jobs| && s.jobs[k].task.Pulling?
       case SynthesisPut(k) =>
         k < |s.jobs| && s.jobs[k].task.Holding? && |s.jobs[k].audio| < c.audioCapacity
       case PublisherGet =>
         || (s.publisher.AwaitOutput? && s.output != [])
         || (s.publisher.AwaitAudio? && s.publisher.job < |s.jobs| && s.jobs[s.publisher.job].audio != [])
       case PublisherHandle =>
         || s.publisher.HoldOutput? || s.publisher.HoldAudio?
         || (s.publisher.AwaitTasks? && AllTasksDone(s))
       case PublisherInterrupted =>
         s.tokenCancelled && (s.publisher.AwaitOutput? || s.publisher.AwaitAudio?)
       case Supersede => s.live
       case CancelToken => !s.tokenCancelled
       case Abandon => s.publisher.AwaitOutput? || s.publisher.AwaitAudio?
  }

  predicate ProducerMayPull(c: Config, p: Producer) {
    (p.Streaming? || p.Flushing?) && p.pending == []
  }

  predicate ProducerMayPut(p: Producer) {
    p.Putting? || ((p.Streaming? || p.Flushing?) && p.pending != [])
  }

  predicate AllTasksDone(s: State) {
    && s.producer.ProducerDone? && s.dispatcher.DispatcherDone?
    && forall k :: 0 <= k < |s.jobs| ==> s.jobs[k].task.TaskDone?
  }

  function Next(c: Config, s: State, step: Step): State
    requires ValidConfig(c) && Enabled(c, s, step)
  {
    match step
    case ProducerPull => s.(producer := Pulled(c, s.producer, s.live))
    case ProducerPut =>
      s.(producer := AfterPut(s.producer), segments := s.segments + [HeadItem(s.producer)])
    case DispatcherGet =>
      s.(dispatcher := Dispatched(s.segments[0]), segments := s.segments[1..])
    case DispatcherAcquire =>
      s.(dispatcher := PuttingJob(s.dispatcher.segment), slots := s.slots - 1)
    case DispatcherPut =>
      if s.dispatcher.PuttingJob? then
        s.(dispatcher := Fetching,
           output := s.output + [JobItem(|s.jobs|)],
           jobs := s.jobs + [NewJob(s.dispatcher.segment)])
      else
        s.(dispatcher := DispatcherDone, output := s.output + [LastItem(s.dispatcher.item)])
    case SynthesisPull(k) =>
      s.(jobs := s.jobs[k := s.jobs[k].(task := TaskPulled(c, s.jobs[k].segment, s.jobs[k].task))])
    case SynthesisPut(k) =>
      s.(jobs := s.jobs[k := JobPut(s.jobs[k])],
         slots := if Terminal(s.jobs[k].task.item) then s.slots + 1 else s.slots)
    case PublisherGet =>
      if s.publisher.AwaitOutput? then
        s.(publisher := HoldOutput(s.output[0]), output := s.output[1..],
           taken := if s.output[0].JobItem? then s.taken + 1 else s.taken)
      else
        var k := s.publisher.job;
        s.(publisher := HoldAudio(k, s.jobs[k].audio[0]), jobs := s.jobs[k := JobTaken(s.jobs[k])])
    case PublisherHandle => Handled(s)
    case PublisherInterrupted => s.(publisher := Stopped(Raised(Cancelled)))
    case Supersede => s.(live := false)
    case CancelToken => s.(live := false, tokenCancelled := true)
    case Abandon => s.(publisher := Stopped(Outcome.Abandoned))
  }

  /** One model event reaches the producer, or its stream ends. */
  function Pulled(c: Config, p: Producer, live: bool): Producer
    requires ValidConfig(c) && ProducerMayPull(c, p)
  {
    match p
    case Flushing(_, asm, completion) => Putting(FinishedItem(asm, completion))
    case Streaming(next, _, asm, completion) =>
      if next >= |c.modelEvents| then
        match c.modelEnd
        case Raises(e) => Putting(StageFailed(e))
        case Ends =>
          var done := Assembler.Finished(asm);
          Flushing(done.segments[|asm.segments|..], done, completion)
      else if !live then Putting(StageFailed(Cancelled))
      else
        match c.modelEvents[next]
        case TextDelta(text) =>
          var pushed := Pushed(asm, text, c.maxSegmentChars);
          Streaming(next + 1, pushed.segments[|asm.segments|..], pushed, completion)
        case Completed(done) =>
          if completion.Some? then Putting(StageFailed(DuplicateCompletion))
          else Streaming(next + 1, [], asm, Some(done))
        case Unsupported => Putting(StageFailed(UnsupportedModelEvent))
  }

  function FinishedItem(asm: Assembly, completion: Option<Completion>): ProductionItem {
    ProductionFinished(Plan(asm.segments,
                            if completion.Some? then completion.value else DEFAULT_COMPLETION))
  }

  function HeadItem(p: Producer): ProductionItem
    requires ProducerMayPut(p)
  {
    if p.Putting? then p.item else Produced(p.pending[0])
  }

  function AfterPut(p: Producer): Producer
    requires ProducerMayPut(p)
  {
    match p
    case Putting(_) => ProducerDone
    case Streaming(next, pending, asm, completion) => Streaming(next, pending[1..], asm, completion)
    case Flushing(pending, asm, completion) => Flushing(pending[1..], asm, completion)
  }

  function Dispatched(item: ProductionItem): Dispatcher {
    if item.Produced? then Acquiring(item.segment) else PuttingLast(item)
  }

  function NewJob(segment: Segment): Job {
    Job(segment, [], Pulling(0, 0, false), 0)
  }

  predicate Terminal(item: AudioItem) {
    !item.Audio?
  }

  /** The checks `_synthesize` makes on a chunk, in its order. */
  function ChunkFault(c: Config, segment: Segment, chunk: Chunk, expected: nat, sawFinal: bool): Option<Error> {
    if sawFinal then Some(AudioAfterFinal)
    else if chunk.segmentId != c.idOf(segment.sequence) then Some(WrongSegmentId)
    else if chunk.sequence != segment.sequence then Some(WrongSegmentSequence)
    else if chunk.index != expected then Some(WrongChunkIndex)
    else None
  }

  /** What a synthesis task queues last, once its provider has stopped. */
  function EndItem(end: StreamEnd, expected: nat, sawFinal: bool): AudioItem {
    match end
    case Raises(e) => SynthesisFailed(e)
    case Ends =>
      if expected == 0 then SynthesisFailed(NoAudio)
      else if !sawFinal then SynthesisFailed(NoFinalChunk)
      else SynthesisFinished
  }

  function TaskPulled(c: Config, segment: Segment, t: Task): Task
    requires t.Pulling?
  {
    var script := c.speech(segment);
    if t.next >= |script.chunks| then
      Holding(EndItem(script.end, t.expected, t.sawFinal), t.next, t.expected, t.sawFinal)
    else
      var chunk := script.chunks[t.next];
      match ChunkFault(c, segment, chunk, t.expected, t.sawFinal)
      case Some(e) => Holding(SynthesisFailed(e), t.next, t.expected, t.sawFinal)
      case None => Holding(Audio(chunk), t.next + 1, t.expected + 1, chunk.isFinal)
  }

  function JobPut(j: Job): Job
    requires j.task.Holding?
  {
    var t := j.task;
    j.(audio := j.audio + [t.item],
       task := if Terminal(t.item) then TaskDone else Pulling(t.next, t.expected, t.sawFinal))
  }

  function JobTaken(j: Job): Job
    requires j.audio != []
  {
    j.(audio := j.audio[1..], taken := j.taken + 1)
  }

  /** The publisher acts on what it holds; only live runs show anything. */
  function Handled(s: State): State
    requires s.publisher.HoldOutput? || s.publisher.HoldAudio? || s.publisher.AwaitTasks?
  {
    match s.publisher
    case AwaitTasks(plan) =>
      if s.live then s.(publisher := Stopped(Outcome.Finished), visible := s.visible + [UtteranceCompleted(plan)])
      else s.(publisher := Stopped(Raised(Cancelled)))
    case HoldOutput(LastItem(ProductionFinished(plan))) => s.(publisher := AwaitTasks(plan))
    case HoldOutput(LastItem(StageFailed(e))) => s.(publisher := Stopped(Raised(e)))
    case HoldOutput(LastItem(Produced(_))) => s
    case HoldOutput(JobItem(k)) =>
      if s.live && k < |s.jobs| then
        s.(publisher := AwaitAudio(k), visible := s.visible + [SegmentReady(s.jobs[k].segment)])
      else s.(publisher := Stopped(Raised(Cancelled)))
    case HoldAudio(k, SynthesisFailed(e)) => s.(publisher := Stopped(Raised(e)))
    case HoldAudio(k, SynthesisFinished) => s.(publisher := AwaitOutput)
    case HoldAudio(k, Audio(chunk)) =>
      if s.live && k < |s.jobs| then
        s.(publisher := AwaitAudio(k),
           visible := s.visible + [SegmentAudioReady(s.jobs[k].segment, chunk)])
      else s.(publisher := Stopped(Raised(Cancelled)))
  }

  // ---- Runs ----

  /** Where the schedule `steps` leads from `Init`; `None` if some step is not enabled in its turn. */
  function Execute(c: Config, steps: seq<Step>): Option<State>
    requires ValidConfig(c)
  {
    if steps == [] then Some(Init(c))
    else
      var last := |steps| - 1;
      match Execute(c, steps[..last])
      case None => None
      case Some(s) => if Enabled(c, s, steps[last]) then Some(Next(c, s, steps[last])) else None
  }

  // ---- The sequential loop the pipeline must look like ----

  /** All the items a producer that is never cancelled still has to put, in order. */
  function Stream(c: Config, next: nat, asm: Assembly, completion: Option<Completion>): (items: seq<ProductionItem>)
    requires ValidConfig(c)
    ensures items != []
    decreases |c.modelEvents| - next
  {
    if next >= |c.modelEvents| then
      match c.modelEnd
      case Raises(e) => [StageFailed(e)]
      case Ends =>
        var done := Assembler.Finished(asm);
        ItemsOf(done.segments[|asm.segments|..]) + [FinishedItem(done, completion)]
    else
      match c.modelEvents[next]
      case TextDelta(text) =>
        var pushed := Pushed(asm, text, c.maxSegmentChars);
        ItemsOf(pushed.segments[|asm.segments|..]) + Stream(c, next + 1, pushed, completion)
      case Completed(done) =>
        if completion.Some? then [StageFailed(DuplicateCompletion)]
        else Stream(c, next + 1, asm, Some(done))
      case Unsupported => [StageFailed(UnsupportedModelEvent)]
  }

  function ItemsOf(segments: seq<Segment>): (items: seq<ProductionItem>)
    ensures |items| == |segments|
  {
    seq(|segments|, i requires 0 <= i < |segments| => Produced(segments[i]))
  }

  function AllItems(c: Config): (items: seq<ProductionItem>)
    requires ValidConfig(c)
    ensures items != []
  {
    Stream(c, 0, Assembly([], []), None)
  }

  /** All the audio items one segment's synthesis yields, in order. */
  function Speech(c: Config, segment: Segment, next: nat, expected: nat, sawFinal: bool): (items: seq<AudioItem>)
    ensures items != []
    decreases |c.speech(segment).chunks| - next
  {
    var script := c.speech(segment);
    if next >= |script.chunks| then [EndItem(script.end, expected, sawFinal)]
    else
      var chunk := script.chunks[next];
      match ChunkFault(c, segment, chunk, expected, sawFinal)
      case Some(e) => [SynthesisFailed(e)]
      case None => [Audio(chunk)] + Speech(c, segment, next + 1, expected + 1, chunk.isFinal)
  }

  function AllAudio(c: Config, segment: Segment): (items: seq<AudioItem>)
    ensures items != []
  {
    Speech(c, segment, 0, 0, false)
  }

  /** What a run shows and how it ends. */
  datatype Trace = Trace(events: seq<Event>, outcome: Outcome)

  function Before(event: Event, rest: Trace): Trace {
    Trace([event] + rest.events, rest.outcome)
  }

  /** The obvious loop: announce a segment, speak all of it, go on to the next. */
  function Play(c: Config, items: seq<ProductionItem>, i: nat): Trace
    decreases |items| - i, 1, 0
  {
    if i >= |items| then Trace([], Outcome.Abandoned)
    else
      match items[i]
      case ProductionFinished(plan) => Trace([UtteranceCompleted(plan)], Outcome.Finished)
      case StageFailed(e) => Trace([], Raised(e))
      case Produced(segment) =>
        Before(SegmentReady(segment), PlayAudio(c, items, i, AllAudio(c, segment), 0))
  }

  function PlayAudio(c: Config, items: seq<ProductionItem>, i: nat, audio: seq<AudioItem>, j: nat): Trace
    requires i < |items| && items[i].Produced?
    decreases |items| - i, 0, |audio| - j
  {
    if j >= |audio| then Trace([], Outcome.Abandoned)
    else
      match audio[j]
      case SynthesisFailed(e) => Trace([], Raised(e))
      case SynthesisFinished => Play(c, items, i + 1)
      case Audio(chunk) =>
        Before(SegmentAudioReady(items[i].segment, chunk), PlayAudio(c, items, i, audio, j + 1))
  }

  /** The sequential reference: produce everything, then play it segment by segment. */
  function Sequential(c: Config): Trace
    requires ValidConfig(c)
  {
    Play(c, AllItems(c), 0)
  }
}
