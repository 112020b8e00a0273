/** The pipeline never gets stuck, and every schedule ends. */
module PipelineProgress {
  import opened Text
  import opened Assembler
  import opened Pipeline
  import opened PipelineInvariant
  import opened PipelineSteps

  // ---- Some task can always move ----

  lemma SpentMeansDone(c: Config, j: Job)
    requires JobOk(c, j)
    ensures j.audio == [] && j.task.TaskDone? ==> Spent(c, j)
    ensures Spent(c, j) ==> j.audio == [] && j.task.TaskDone?
  {
    hide Speech, AllAudio;
    var all := AllAudio(c, j.segment);
    assert |all[j.taken..]| == |all| - j.taken;
    assert |j.audio + TaskRest(c, j.segment, j.task)| == |j.audio| + |TaskRest(c, j.segment, j.task)|;
  }

  /** A publisher waiting for audio is served by the job's own task. */
  lemma AudioMoves(c: Config, s: State, items: seq<ProductionItem>) returns (step: Step)
    requires ValidConfig(c) && Inv(c, s, items) && s.publisher.AwaitAudio?
    ensures Enabled(c, s, step) && !External(step)
  {
    hide Rest, Play, Ahead, Running, JobOk, AllAudio, FlowOk, DispatcherOk, OutputOk;
    var k := s.publisher.job;
    JobAt(c, s.jobs, k, items);
    SpentMeansDone(c, s.jobs[k]);
    if s.jobs[k].audio != [] { step := PublisherGet; }
    else if s.jobs[k].task.Pulling? { step := SynthesisPull(k); }
    else { step := SynthesisPut(k); }
  }

  lemma {:induction false} NoneRunning(c: Config, jobs: seq<Job>)
    requires forall k :: 0 <= k < |jobs| ==> JobOk(c, jobs[k]) && Spent(c, jobs[k])
    ensures Running(jobs) == 0
    ensures forall k :: 0 <= k < |jobs| ==> jobs[k].task.TaskDone?
  {
    hide JobOk, AllAudio;
    if jobs != [] {
      NoneRunning(c, jobs[..|jobs| - 1]);
      SpentMeansDone(c, jobs[|jobs| - 1]);
    }
  }

  /** A publisher waiting for a job is served by the dispatcher or the producer. */
  lemma OutputMoves(c: Config, s: State, items: seq<ProductionItem>) returns (step: Step)
    requires ValidConfig(c) && Inv(c, s, items) && s.publisher.AwaitOutput?
    ensures Enabled(c, s, step) && !External(step)
  {
    hide Play, Ahead, Running, JobOk, AllAudio, Stream;
    if s.output != [] { step := PublisherGet; return; }
    assert s.taken == |s.jobs|;
    NoneRunning(c, s.jobs);
    match s.dispatcher
    case PuttingJob(_) => step := DispatcherPut;
    case PuttingLast(_) => step := DispatcherPut;
    case Acquiring(_) => step := DispatcherAcquire;
    case Fetching =>
      if s.segments != [] { step := DispatcherGet; }
      else { step := ProducerMoves(c, s, items); }
  }

  lemma ProducerMoves(c: Config, s: State, items: seq<ProductionItem>) returns (step: Step)
    requires ValidConfig(c) && !s.publisher.Stopped? && s.segments == []
    requires |s.jobs| < |items| && FlowOk(c, s.producer, s.segments, |s.jobs|, items)
    ensures Enabled(c, s, step) && !External(step)
  {
    hide Stream;
    assert |items[|s.jobs|..]| > 0;
    assert !s.producer.ProducerDone?;
    if ProducerMayPut(s.producer) { step := ProducerPut; } else { step := ProducerPull; }
  }

  lemma TasksAwaited(c: Config, s: State, items: seq<ProductionItem>)
    requires ValidConfig(c) && Inv(c, s, items) && s.publisher.AwaitTasks?
    ensures Enabled(c, s, PublisherHandle)
  {
    hide Play, Ahead, Running, JobOk, AllAudio, Stream;
    NoneRunning(c, s.jobs);
    assert items[|items|..] == [];
  }

  /** Deadlock freedom: in every state that satisfies the invariant, an unfinished pipeline has a
      step of its own. */
  lemma SomeTaskMoves(c: Config, s: State, items: seq<ProductionItem>) returns (step: Step)
    requires ValidConfig(c) && Inv(c, s, items) && !s.publisher.Stopped?
    ensures Enabled(c, s, step) && !External(step)
  {
    hide Inv, AllTasksDone;
    match s.publisher
    case AwaitOutput => step := OutputMoves(c, s, items);
    case AwaitAudio(_) => step := AudioMoves(c, s, items);
    case AwaitTasks(_) => TasksAwaited(c, s, items); step := PublisherHandle;
    case _ => step := PublisherHandle;
  }

  // ---- Every step uses up some work ----

  function ProducerWork(c: Config, p: Producer): nat
    requires ValidConfig(c)
  {
    |Rest(c, p)| +
    match p
    case Streaming(next, _, _, _) => 3 + (if next < |c.modelEvents| then |c.modelEvents| - next else 0)
    case Flushing(_, _, _) => 2
    case Putting(_) => 1
    case ProducerDone => 0
  }

  function DispatcherWork(d: Dispatcher, n: nat, items: seq<ProductionItem>): int {
    3 * (|items| - Fetched(d, n)) +
    match d
    case Acquiring(_) => 2
    case PuttingJob(_) => 1
    case PuttingLast(_) => 1
    case _ => 0
  }

  function JobWork(c: Config, j: Job): int {
    2 * |TaskRest(c, j.segment, j.task)| + (if j.task.Pulling? then 1 else 0)
    + 2 * (|AllAudio(c, j.segment)| - j.taken)
  }

  /** Work on item `k`: that of its job, or all of it while no job exists. */
  function ItemWork(c: Config, jobs: seq<Job>, items: seq<ProductionItem>, k: nat): int
    requires k < |items|
  {
    if k < |jobs| then JobWork(c, jobs[k])
    else if items[k].Produced? then JobWork(c, NewJob(items[k].segment))
    else 0
  }

  function SpeechWork(c: Config, jobs: seq<Job>, items: seq<ProductionItem>, n: nat): int
    requires n <= |items|
  {
    if n == 0 then 0 else SpeechWork(c, jobs, items, n - 1) + ItemWork(c, jobs, items, n - 1)
  }

  function PublisherWork(p: Publisher, taken: nat, items: seq<ProductionItem>): int {
    if p.Stopped? then 0
    else
      3 * (|items| - taken - (if LastTaken(p) then 1 else 0)) +
      (if p.HoldOutput? || p.HoldAudio? then 2 else 1)
  }

  function Work(c: Config, s: State, items: seq<ProductionItem>): int
    requires ValidConfig(c)
  {
    ProducerWork(c, s.producer) + DispatcherWork(s.dispatcher, |s.jobs|, items)
    + SpeechWork(c, s.jobs, items, |items|) + PublisherWork(s.publisher, s.taken, items)
    + (if s.live then 1 else 0) + (if s.tokenCancelled then 0 else 1)
  }

  lemma {:induction false} SpeechWorkUpdate(c: Config, jobs: seq<Job>, items: seq<ProductionItem>, n: nat, k: nat, job: Job)
    requires n <= |items| && k < |jobs|
    ensures SpeechWork(c, jobs[k := job], items, n)
         == SpeechWork(c, jobs, items, n) + (if k < n then JobWork(c, job) - JobWork(c, jobs[k]) else 0)
    decreases n
  {
    hide JobWork;
    if n > 0 { SpeechWorkUpdate(c, jobs, items, n - 1, k, job); }
  }

  lemma {:induction false} SpeechWorkNewJob(c: Config, jobs: seq<Job>, items: seq<ProductionItem>, n: nat)
    requires n <= |items| && |jobs| < |items| && items[|jobs|].Produced?
    ensures SpeechWork(c, jobs + [NewJob(items[|jobs|].segment)], items, n) == SpeechWork(c, jobs, items, n)
    decreases n
  {
    hide JobWork, NewJob;
    if n > 0 { SpeechWorkNewJob(c, jobs, items, n - 1); }
  }

  lemma {:induction false} SpeechWorkPositive(c: Config, jobs: seq<Job>, items: seq<ProductionItem>, from: nat, n: nat)
    requires from <= n <= |items|
    requires forall k :: 0 <= k < |jobs| ==> JobOk(c, jobs[k])
    ensures 0 <= SpeechWork(c, jobs, items, from) <= SpeechWork(c, jobs, items, n)
    decreases n
  {
    hide JobOk, JobWork;
    if n > 0 {
      SpeechWorkPositive(c, jobs, items, if from < n then from else n - 1, n - 1);
      ItemWorkPositive(c, jobs, items, n - 1);
    }
  }

  lemma ItemWorkPositive(c: Config, jobs: seq<Job>, items: seq<ProductionItem>, k: nat)
    requires k < |items| && forall i :: 0 <= i < |jobs| ==> JobOk(c, jobs[i])
    ensures ItemWork(c, jobs, items, k) >= 0
  {
    hide Speech, AllAudio, TaskRest;
  }

  lemma {:induction false} SpeechWorkAgrees(c: Config, jobs: seq<Job>, a: seq<ProductionItem>, b: seq<ProductionItem>, n: nat)
    requires n <= |a| && n <= |b| && forall i :: 0 <= i < n ==> a[i] == b[i]
    ensures SpeechWork(c, jobs, a, n) == SpeechWork(c, jobs, b, n)
  {
    hide JobWork;
    if n > 0 { SpeechWorkAgrees(c, jobs, a, b, n - 1); }
  }

  lemma WorkPositive(c: Config, s: State, items: seq<ProductionItem>)
    requires ValidConfig(c) && Inv(c, s, items) && !s.publisher.Stopped?
    ensures Work(c, s, items) > 0
  {
    hide Rest, Play, Ahead, Running, JobOk, PublisherOk;
    SpeechWorkPositive(c, s.jobs, items, 0, |items|);
  }

  // ---- Each step, in turn ----

  lemma ProducerStepWorks(c: Config, s: State, step: Step, items: seq<ProductionItem>)
    requires ValidConfig(c) && Enabled(c, s, step)
    requires step.ProducerPut? || (step.ProducerPull? && !CutShort(c, s.producer, s.live))
    ensures Work(c, Next(c, s, step), items) < Work(c, s, items)
  {
    hide Rest, SpeechWork, DispatcherWork, PublisherWork;
    if step.ProducerPut? { PutTakesHead(c, s.producer); } else { PullKeepsRest(c, s.producer, s.live); }
  }

  lemma ProducerCutWorks(c: Config, s: State, items: seq<ProductionItem>)
    requires ValidConfig(c) && Inv(c, s, items) && Enabled(c, s, ProducerPull)
    requires CutShort(c, s.producer, s.live)
    ensures Work(c, Next(c, s, ProducerPull), ItemsAfter(c, s, ProducerPull, items)) < Work(c, s, items)
  {
    hide Rest, Pulled, SpeechWork, Inv, ItemsAfter, JobOk;
    CutPulls(c, s.producer, s.live);
    CutItems(c, s, items);
    CutSpeech(c, s.jobs, items, ItemsAfter(c, s, ProducerPull, items));
    LastRest(c);
  }

  lemma CutItems(c: Config, s: State, items: seq<ProductionItem>)
    requires ValidConfig(c) && Inv(c, s, items) && Enabled(c, s, ProducerPull)
    requires CutShort(c, s.producer, s.live)
    ensures var cut := ItemsAfter(c, s, ProducerPull, items);
      && Production(cut) && |s.jobs| < |cut| <= |items| && |cut| == |items| - |Rest(c, s.producer)| + 1
      && (forall i :: 0 <= i < |cut| - 1 ==> cut[i] == items[i])
    ensures forall k :: 0 <= k < |s.jobs| ==> JobOk(c, s.jobs[k])
  {
    hide Rest, Pulled, Play, Ahead, JobOk, PublisherOk, BoundsOk, RunShownOk, OutputOk;
    PullKeepsRest(c, s.producer, s.live);
    CutFlow(items, Fetched(s.dispatcher, |s.jobs|), s.segments, Rest(c, s.producer));
  }

  lemma LastRest(c: Config)
    requires ValidConfig(c)
    ensures |Rest(c, Putting(StageFailed(Cancelled)))| == 1
  {
  }

  lemma CutSpeech(c: Config, jobs: seq<Job>, items: seq<ProductionItem>, cut: seq<ProductionItem>)
    requires Production(cut) && |jobs| < |cut| <= |items| && forall i :: 0 <= i < |cut| - 1 ==> cut[i] == items[i]
    requires forall k :: 0 <= k < |jobs| ==> JobOk(c, jobs[k])
    ensures SpeechWork(c, jobs, cut, |cut|) <= SpeechWork(c, jobs, items, |items|)
  {
    hide JobOk, SpeechWork;
    var n := |cut| - 1;
    SpeechWorkAgrees(c, jobs, cut, items, n);
    SpeechWorkPositive(c, jobs, items, n, |items|);
    LastWork(c, jobs, cut);
  }

  lemma CutPulls(c: Config, p: Producer, live: bool)
    requires ValidConfig(c) && ProducerMayPull(c, p) && CutShort(c, p, live)
    ensures Pulled(c, p, live) == Putting(StageFailed(Cancelled))
  {
  }

  lemma LastWork(c: Config, jobs: seq<Job>, items: seq<ProductionItem>)
    requires Production(items) && |jobs| < |items|
    ensures SpeechWork(c, jobs, items, |items|) == SpeechWork(c, jobs, items, |items| - 1)
  {
  }

  lemma DispatcherStepWorks(c: Config, s: State, step: Step, items: seq<ProductionItem>)
    requires ValidConfig(c) && Inv(c, s, items) && Enabled(c, s, step)
    requires step.DispatcherGet? || step.DispatcherAcquire? || step.DispatcherPut?
    ensures Work(c, Next(c, s, step), items) < Work(c, s, items)
  {
    hide Rest, Play, Ahead, Running, JobsOk, PublisherOk, SpeechWork, ProducerWork, PublisherWork, NewJob, ShownOk;
    if s.dispatcher.PuttingJob? { SpeechWorkNewJob(c, s.jobs, items, |items|); }
  }

  lemma SynthesisStepWorks(c: Config, s: State, step: Step, items: seq<ProductionItem>)
    requires ValidConfig(c) && Inv(c, s, items) && Enabled(c, s, step)
    requires step.SynthesisPull? || step.SynthesisPut?
    ensures Work(c, Next(c, s, step), items) < Work(c, s, items)
  {
    hide Rest, Play, Ahead, Running, JobOk, PublisherOk, OutputOk, SpeechWork, ProducerWork, PublisherWork, TaskRest, TaskPulled, AllAudio;
    var k := step.job;
    JobAt(c, s.jobs, k, items);
    var job := Next(c, s, step).jobs[k];
    if step.SynthesisPull? {
      TaskPullKeepsRest(c, s.jobs[k].segment, s.jobs[k].task);
      TaskPulledHolds(c, s.jobs[k].segment, s.jobs[k].task);
    } else {
      JobPutOk(c, s.jobs[k]);
    }
    SpeechWorkUpdate(c, s.jobs, items, |items|, k, job);
  }

  lemma PublisherStepWorks(c: Config, s: State, step: Step, items: seq<ProductionItem>)
    requires ValidConfig(c) && Inv(c, s, items) && Enabled(c, s, step)
    requires step.PublisherGet? || step.PublisherHandle? || step.PublisherInterrupted? || External(step)
    ensures Work(c, Next(c, s, step), items) < Work(c, s, items)
  {
    hide Rest, Play, Ahead, Running, JobOk, SpeechWork, ProducerWork, DispatcherWork, AllAudio, Played, FlowOk;
    if step.PublisherGet? && s.publisher.AwaitAudio? {
      var k := s.publisher.job;
      JobAt(c, s.jobs, k, items);
      SpeechWorkUpdate(c, s.jobs, items, |items|, k, JobTaken(s.jobs[k]));
    }
  }

  /** Each step, whoever takes it, leaves less work to do. */
  lemma StepWorks(c: Config, s: State, step: Step, items: seq<ProductionItem>)
    requires ValidConfig(c) && Inv(c, s, items) && Enabled(c, s, step)
    ensures Work(c, Next(c, s, step), ItemsAfter(c, s, step, items)) < Work(c, s, items)
  {
    hide Inv, Work, Next, Rest;
    match step
    case ProducerPull =>
      if CutShort(c, s.producer, s.live) { ProducerCutWorks(c, s, items); }
      else { ProducerStepWorks(c, s, step, items); }
    case ProducerPut => ProducerStepWorks(c, s, step, items);
    case DispatcherGet => DispatcherStepWorks(c, s, step, items);
    case DispatcherAcquire => DispatcherStepWorks(c, s, step, items);
    case DispatcherPut => DispatcherStepWorks(c, s, step, items);
    case SynthesisPull(_) => SynthesisStepWorks(c, s, step, items);
    case SynthesisPut(_) => SynthesisStepWorks(c, s, step, items);
    case _ => PublisherStepWorks(c, s, step, items);
  }
}
