/** Every step keeps the invariant. */
module PipelineSteps {
  import opened Text
  import opened Assembler
  import opened Pipeline
  import opened PipelineInvariant

  /** The production that happens after `step`: shorter if the step is the cancellation of the producer. */
  ghost function ItemsAfter(c: Config, s: State, step: Step, items: seq<ProductionItem>): seq<ProductionItem>
    requires ValidConfig(c)
  {
    if step.ProducerPull? && CutShort(c, s.producer, s.live) && |Rest(c, s.producer)| <= |items| then
      items[..|items| - |Rest(c, s.producer)|] + [StageFailed(Cancelled)]
    else items
  }

  // ---- Producer ----

  lemma ProducerPullKeeps(c: Config, s: State, items: seq<ProductionItem>)
    requires ValidConfig(c) && Inv(c, s, items) && Enabled(c, s, ProducerPull)
    requires !CutShort(c, s.producer, s.live)
    ensures Inv(c, Next(c, s, ProducerPull), items)
  {
    hide Rest, Pulled, Play, Ahead, Running, JobsOk, OutputOk, PublisherOk;
    PullKeepsRest(c, s.producer, s.live);
  }

  lemma ProducerPutKeeps(c: Config, s: State, items: seq<ProductionItem>)
    requires ValidConfig(c) && Inv(c, s, items) && Enabled(c, s, ProducerPut)
    ensures Inv(c, Next(c, s, ProducerPut), items)
  {
    hide Rest, AfterPut, HeadItem, Play, Ahead, Running, JobsOk, OutputOk, PublisherOk;
    PutTakesHead(c, s.producer);
    AppendMoves(s.segments, HeadItem(s.producer), Rest(c, AfterPut(s.producer)));
  }

  /** A cancelled producer puts a failure instead of the items it still had. */
  lemma ProducerCutKeeps(c: Config, s: State, items: seq<ProductionItem>)
    requires ValidConfig(c) && Inv(c, s, items) && Enabled(c, s, ProducerPull)
    requires CutShort(c, s.producer, s.live)
    ensures Inv(c, Next(c, s, ProducerPull), ItemsAfter(c, s, ProducerPull, items))
  {
    hide Rest, Pulled, Play, Ahead, Running, JobOk, AllAudio, Played;
    PullKeepsRest(c, s.producer, s.live);
    var rest := Rest(c, s.producer);
    var fetched := Fetched(s.dispatcher, |s.jobs|);
    CutFlow(items, fetched, s.segments, rest);
    var cut := ItemsAfter(c, s, ProducerPull, items);
    assert |cut| == fetched + |s.segments| + 1;
    CutTasks(c, s, items, cut);
  }

  lemma CutFlow(items: seq<ProductionItem>, fetched: nat, queue: seq<ProductionItem>, rest: seq<ProductionItem>)
    requires Production(items) && fetched <= |items| && items[fetched..] == queue + rest && rest != []
    ensures |items| == fetched + |queue| + |rest|
    ensures var cut := items[..|items| - |rest|] + [StageFailed(Cancelled)];
            && cut[fetched..] == queue + [StageFailed(Cancelled)]
            && Production(cut)
            && (forall i :: 0 <= i < |cut| - 1 ==> cut[i] == items[i])
  {
    assert |items[fetched..]| == |queue| + |rest|;
    var n := |items| - |rest|;
    forall i | 0 <= i < |queue|
      ensures items[fetched + i] == queue[i]
    {
      assert items[fetched..][i] == queue[i];
    }
    assert items[..n][fetched..] == queue;
    assert (items[..n] + [StageFailed(Cancelled)])[fetched..] == items[..n][fetched..] + [StageFailed(Cancelled)];
  }

  /** Nothing that was already under way notices the cut. */
  lemma CutTasks(c: Config, s: State, items: seq<ProductionItem>, cut: seq<ProductionItem>)
    requires ValidConfig(c) && Production(items) && Production(cut)
    requires DispatcherOk(s.dispatcher, |s.jobs|, items) && JobsOk(c, s.jobs, items)
    requires OutputOk(s.output, s.taken, |s.jobs|, s.dispatcher, LastTaken(s.publisher), items)
    requires PublisherOk(c, s.publisher, s.taken, s.jobs, items)
    requires Fetched(s.dispatcher, |s.jobs|) < |cut| <= |items|
    requires forall i :: 0 <= i < |cut| - 1 ==> cut[i] == items[i]
    ensures DispatcherOk(s.dispatcher, |s.jobs|, cut) && JobsOk(c, s.jobs, cut)
    ensures OutputOk(s.output, s.taken, |s.jobs|, s.dispatcher, LastTaken(s.publisher), cut)
    ensures PublisherOk(c, s.publisher, s.taken, s.jobs, cut)
  {
    hide JobOk, Played;
  }

  // ---- Dispatcher ----

  lemma DispatcherGetKeeps(c: Config, s: State, items: seq<ProductionItem>)
    requires ValidConfig(c) && Inv(c, s, items) && Enabled(c, s, DispatcherGet)
    ensures Inv(c, Next(c, s, DispatcherGet), items)
  {
    hide Rest, Play, Ahead, Running, JobsOk, PublisherOk;
    DropHead(items, |s.jobs|, s.segments, Rest(c, s.producer));
  }

  lemma DispatcherAcquireKeeps(c: Config, s: State, items: seq<ProductionItem>)
    requires ValidConfig(c) && Inv(c, s, items) && Enabled(c, s, DispatcherAcquire)
    ensures Inv(c, Next(c, s, DispatcherAcquire), items)
  {
    hide Rest, Play, Ahead, Running, JobsOk, PublisherOk;
  }

  lemma DispatcherPutLastKeeps(c: Config, s: State, items: seq<ProductionItem>)
    requires ValidConfig(c) && Inv(c, s, items) && Enabled(c, s, DispatcherPut)
    requires s.dispatcher.PuttingLast?
    ensures Inv(c, Next(c, s, DispatcherPut), items)
  {
    hide Rest, Play, Ahead, Running, JobsOk, PublisherOk;
  }

  lemma DispatcherPutJobKeeps(c: Config, s: State, items: seq<ProductionItem>)
    requires ValidConfig(c) && Inv(c, s, items) && Enabled(c, s, DispatcherPut)
    requires s.dispatcher.PuttingJob?
    ensures Inv(c, Next(c, s, DispatcherPut), items)
  {
    hide Rest, Play, Running, JobOk, JobsOk, PublisherOk, Ahead;
    var job := NewJob(s.dispatcher.segment);
    NewJobOk(c, s.dispatcher.segment);
    NewJobFrame(c, s.publisher, s.taken, s.jobs, job, items);
    RunningAppend(s.jobs, job);
  }

  lemma NewJobFrame(c: Config, p: Publisher, taken: nat, jobs: seq<Job>, job: Job, items: seq<ProductionItem>)
    requires JobsOk(c, jobs, items) && PublisherOk(c, p, taken, jobs, items) && taken <= |jobs|
    requires |jobs| + 1 < |items| && items[|jobs|] == Produced(job.segment) && job.taken == 0 && JobOk(c, job)
    ensures JobsOk(c, jobs + [job], items)
    ensures PublisherOk(c, p, taken, jobs + [job], items)
    ensures Ahead(c, p, taken, jobs + [job], items) == Ahead(c, p, taken, jobs, items)
  {
    hide Play, PlayAudio, AudioAhead, JobOk, AllAudio;
  }

  lemma RunningAppend(jobs: seq<Job>, job: Job)
    ensures Running(jobs + [job]) == Running(jobs) + (if job.task.TaskDone? then 0 else 1)
  {
    assert (jobs + [job])[..|jobs|] == jobs;
  }

  // ---- Synthesis ----

  lemma {:induction false} RunningUpdate(jobs: seq<Job>, k: nat, job: Job)
    requires k < |jobs|
    ensures Running(jobs[k := job]) + (if jobs[k].task.TaskDone? then 0 else 1)
         == Running(jobs) + (if job.task.TaskDone? then 0 else 1)
    decreases |jobs|
  {
    var last := |jobs| - 1;
    if k == last {
      assert jobs[k := job][..last] == jobs[..last];
    } else {
      assert jobs[k := job][..last] == jobs[..last][k := job];
      RunningUpdate(jobs[..last], k, job);
    }
  }

  /** Progress inside a synthesis task leaves the rest of the pipeline as it was. */
  lemma TaskStepFrame(c: Config, p: Publisher, taken: nat, jobs: seq<Job>, k: nat, job: Job, items: seq<ProductionItem>)
    requires k < |jobs| && JobsOk(c, jobs, items) && PublisherOk(c, p, taken, jobs, items)
    requires job.segment == jobs[k].segment && job.taken == jobs[k].taken && JobOk(c, job)
    ensures JobsOk(c, jobs[k := job], items)
    ensures PublisherOk(c, p, taken, jobs[k := job], items)
    ensures Ahead(c, p, taken, jobs[k := job], items) == Ahead(c, p, taken, jobs, items)
  {
    hide Play, PlayAudio, AudioAhead, JobOk, AllAudio;
  }

  lemma SynthesisPullKeeps(c: Config, s: State, k: nat, items: seq<ProductionItem>)
    requires ValidConfig(c) && Inv(c, s, items) && Enabled(c, s, SynthesisPull(k))
    ensures Inv(c, Next(c, s, SynthesisPull(k)), items)
  {
    hide Rest, Play, Running, JobOk, TaskPulled, JobsOk, PublisherOk, Ahead;
    var job := s.jobs[k].(task := TaskPulled(c, s.jobs[k].segment, s.jobs[k].task));
    JobAt(c, s.jobs, k, items);
    JobPullOk(c, s.jobs[k]);
    TaskStepFrame(c, s.publisher, s.taken, s.jobs, k, job, items);
    TaskPulledHolds(c, s.jobs[k].segment, s.jobs[k].task);
    RunningUpdate(s.jobs, k, job);
  }

  lemma JobAt(c: Config, jobs: seq<Job>, k: nat, items: seq<ProductionItem>)
    requires k < |jobs| && JobsOk(c, jobs, items)
    ensures k < |items| && items[k] == Produced(jobs[k].segment) && JobOk(c, jobs[k])
  {
  }

  lemma TaskPulledHolds(c: Config, segment: Segment, t: Task)
    requires t.Pulling?
    ensures TaskPulled(c, segment, t).Holding?
  {
  }

  lemma SynthesisPutKeeps(c: Config, s: State, k: nat, items: seq<ProductionItem>)
    requires ValidConfig(c) && Inv(c, s, items) && Enabled(c, s, SynthesisPut(k))
    ensures Inv(c, Next(c, s, SynthesisPut(k)), items)
  {
    hide Rest, Play, Running, JobOk, JobsOk, PublisherOk, Ahead;
    JobAt(c, s.jobs, k, items);
    JobPutOk(c, s.jobs[k]);
    TaskStepFrame(c, s.publisher, s.taken, s.jobs, k, JobPut(s.jobs[k]), items);
    RunningUpdate(s.jobs, k, JobPut(s.jobs[k]));
  }

  // ---- Publisher ----

  lemma PublisherGetOutputKeeps(c: Config, s: State, items: seq<ProductionItem>)
    requires ValidConfig(c) && Inv(c, s, items) && Enabled(c, s, PublisherGet)
    requires s.publisher.AwaitOutput?
    ensures Inv(c, Next(c, s, PublisherGet), items)
  {
    hide Rest, Play, PlayAudio, Running, JobOk, JobsOk, AllAudio, FlowOk;
  }

  lemma PublisherGetAudioKeeps(c: Config, s: State, items: seq<ProductionItem>)
    requires ValidConfig(c) && Inv(c, s, items) && Enabled(c, s, PublisherGet)
    requires s.publisher.AwaitAudio?
    ensures Inv(c, Next(c, s, PublisherGet), items)
  {
    hide Rest, Play, Running, JobOk, JobsOk, FlowOk, PublisherOk, Ahead;
    var k := s.publisher.job;
    JobAt(c, s.jobs, k, items);
    AudioTakenFrame(c, s.taken, s.jobs, k, items);
    RunningUpdate(s.jobs, k, JobTaken(s.jobs[k]));
  }

  lemma AudioTakenFrame(c: Config, taken: nat, jobs: seq<Job>, k: nat, items: seq<ProductionItem>)
    requires k < |jobs| && JobsOk(c, jobs, items) && PublisherOk(c, AwaitAudio(k), taken, jobs, items)
    requires jobs[k].audio != []
    ensures var held, after := HoldAudio(k, jobs[k].audio[0]), jobs[k := JobTaken(jobs[k])];
            && JobsOk(c, after, items)
            && PublisherOk(c, held, taken, after, items)
            && Ahead(c, held, taken, after, items) == Ahead(c, AwaitAudio(k), taken, jobs, items)
  {
    hide Play, PlayAudio, AudioAhead, JobOk, AllAudio;
    JobTakenOk(c, jobs[k]);
  }

  /** Showing `event` moves it from what lies ahead to what has been shown. */
  lemma ShowMoves(c: Config, visible: seq<Event>, event: Event, rest: Trace, items: seq<ProductionItem>)
    requires ShownOk(c, visible, Before(event, rest), items)
    ensures ShownOk(c, visible + [event], rest, items)
    ensures visible + [event] <= Play(c, items, 0).events
  {
    hide Play;
    AppendMoves(visible, event, rest.events);
  }

  lemma HandleJobKeeps(c: Config, s: State, items: seq<ProductionItem>)
    requires ValidConfig(c) && Inv(c, s, items) && Enabled(c, s, PublisherHandle)
    requires s.publisher.HoldOutput? && s.publisher.item.JobItem?
    ensures Inv(c, Next(c, s, PublisherHandle), items)
  {
    hide Rest, Play, PlayAudio, Running, JobOk, JobsOk, AllAudio, FlowOk, DispatcherOk;
    var k := s.publisher.item.job;
    JobAt(c, s.jobs, k, items);
    PlayStep(c, items, k);
    if s.live {
      ShowMoves(c, s.visible, SegmentReady(s.jobs[k].segment), AudioAhead(c, items, k, 0), items);
    }
  }

  lemma PlayStep(c: Config, items: seq<ProductionItem>, i: nat)
    requires i < |items|
    ensures items[i].Produced? ==> Play(c, items, i) == Before(SegmentReady(items[i].segment), AudioAhead(c, items, i, 0))
    ensures items[i].ProductionFinished? ==>
              Play(c, items, i) == Trace([UtteranceCompleted(items[i].plan)], Outcome.Finished)
    ensures items[i].StageFailed? ==> Play(c, items, i) == Trace([], Raised(items[i].error))
  {
  }

  lemma HandleLastKeeps(c: Config, s: State, items: seq<ProductionItem>)
    requires ValidConfig(c) && Inv(c, s, items) && Enabled(c, s, PublisherHandle)
    requires s.publisher.AwaitTasks? || (s.publisher.HoldOutput? && s.publisher.item.LastItem?)
    ensures Inv(c, Next(c, s, PublisherHandle), items)
  {
    hide Rest, Play, PlayAudio, Running, JobOk, JobsOk, AllAudio, FlowOk, DispatcherOk, Played;
    PlayStep(c, items, |items| - 1);
    if s.publisher.AwaitTasks? && s.live {
      var shown := UtteranceCompleted(s.publisher.plan);
      assert Trace([shown], Outcome.Finished) == Before(shown, Trace([], Outcome.Finished));
      ShowMoves(c, s.visible, shown, Trace([], Outcome.Finished), items);
    }
  }

  lemma AudioStep(c: Config, items: seq<ProductionItem>, k: nat, j: nat)
    requires k < |items| && items[k].Produced? && j < |AllAudio(c, items[k].segment)|
    ensures var audio := AllAudio(c, items[k].segment);
            && (audio[j].Audio? ==>
                  && j + 1 < |audio|
                  && AudioAhead(c, items, k, j)
                     == Before(SegmentAudioReady(items[k].segment, audio[j].chunk), AudioAhead(c, items, k, j + 1)))
            && (audio[j].SynthesisFinished? ==> j + 1 == |audio| && AudioAhead(c, items, k, j) == Play(c, items, k + 1))
            && (audio[j].SynthesisFailed? ==> AudioAhead(c, items, k, j) == Trace([], Raised(audio[j].error)))
  {
    hide Speech, Play;
    SpeechIsNarration(c, items[k].segment, 0, 0, false);
  }

  lemma HandleAudioKeeps(c: Config, s: State, items: seq<ProductionItem>)
    requires ValidConfig(c) && Inv(c, s, items) && Enabled(c, s, PublisherHandle)
    requires s.publisher.HoldAudio?
    ensures Inv(c, Next(c, s, PublisherHandle), items)
  {
    hide Rest, Play, PlayAudio, AudioAhead, Running, JobOk, JobsOk, AllAudio, FlowOk, DispatcherOk;
    var k, item := s.publisher.job, s.publisher.audio;
    JobAt(c, s.jobs, k, items);
    AudioStep(c, items, k, s.jobs[k].taken - 1);
    if s.live && item.Audio? {
      ShowMoves(c, s.visible, SegmentAudioReady(items[k].segment, item.chunk),
                AudioAhead(c, items, k, s.jobs[k].taken), items);
    }
  }

  // ---- All steps ----

  lemma StopKeeps(c: Config, s: State, step: Step, items: seq<ProductionItem>)
    requires ValidConfig(c) && Inv(c, s, items) && Enabled(c, s, step)
    requires step.PublisherInterrupted? || External(step)
    ensures Inv(c, Next(c, s, step), items)
  {
    hide Play, Ahead, Running, FlowOk, DispatcherOk, JobsOk, OutputOk, PublisherOk, ShownOk;
  }

  lemma StepKeeps(c: Config, s: State, step: Step, items: seq<ProductionItem>)
    requires ValidConfig(c) && Inv(c, s, items) && Enabled(c, s, step)
    ensures Inv(c, Next(c, s, step), ItemsAfter(c, s, step, items))
  {
    hide Rest, Next, Inv;
    match step
    case ProducerPull =>
      if CutShort(c, s.producer, s.live) { ProducerCutKeeps(c, s, items); }
      else { ProducerPullKeeps(c, s, items); }
    case ProducerPut => ProducerPutKeeps(c, s, items);
    case DispatcherGet => DispatcherGetKeeps(c, s, items);
    case DispatcherAcquire => DispatcherAcquireKeeps(c, s, items);
    case DispatcherPut =>
      if s.dispatcher.PuttingJob? { DispatcherPutJobKeeps(c, s, items); }
      else { DispatcherPutLastKeeps(c, s, items); }
    case SynthesisPull(k) => SynthesisPullKeeps(c, s, k, items);
    case SynthesisPut(k) => SynthesisPutKeeps(c, s, k, items);
    case PublisherGet =>
      if s.publisher.AwaitOutput? { PublisherGetOutputKeeps(c, s, items); }
      else { PublisherGetAudioKeeps(c, s, items); }
    case PublisherHandle =>
      if s.publisher.HoldAudio? { HandleAudioKeeps(c, s, items); }
      else if s.publisher.HoldOutput? && s.publisher.item.JobItem? { HandleJobKeeps(c, s, items); }
      else { HandleLastKeeps(c, s, items); }
    case _ => StopKeeps(c, s, step, items);
  }
}
