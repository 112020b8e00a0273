/** What every step of the pipeline keeps. */
module PipelineInvariant {
  import opened Text
  import opened Assembler
  import opened Pipeline

  // ---- Producer ----

  /** The items a producer in state `p` still has to put, if it is never cancelled. */
  function Rest(c: Config, p: Producer): seq<ProductionItem>
    requires ValidConfig(c)
  {
    match p
    case Streaming(next, pending, asm, completion) => ItemsOf(pending) + Stream(c, next, asm, completion)
    case Flushing(pending, asm, completion) => ItemsOf(pending) + [FinishedItem(asm, completion)]
    case Putting(item) => [item]
    case ProducerDone => []
  }

  /** `_check_active` fails in the producer on its next model event. */
  predicate CutShort(c: Config, p: Producer, live: bool) {
    p.Streaming? && p.next < |c.modelEvents| && !live
  }

  lemma PullKeepsRest(c: Config, p: Producer, live: bool)
    requires ValidConfig(c) && ProducerMayPull(c, p)
    ensures CutShort(c, p, live) ==> Rest(c, Pulled(c, p, live)) == [StageFailed(Cancelled)]
    ensures !CutShort(c, p, live) ==> Rest(c, Pulled(c, p, live)) == Rest(c, p)
    ensures Rest(c, p) != []
  {
    hide Pushed, Assembler.Finished;
    assert ItemsOf([]) == [];
    if p.Streaming? {
      assert ItemsOf([]) + Stream(c, p.next, p.asm, p.completion) == Stream(c, p.next, p.asm, p.completion);
    }
  }

  lemma PutTakesHead(c: Config, p: Producer)
    requires ValidConfig(c) && ProducerMayPut(p)
    ensures Rest(c, p) == [HeadItem(p)] + Rest(c, AfterPut(p))
  {
    hide Stream;
    match p
    case Putting(item) =>
    case Streaming(next, pending, asm, completion) =>
      ItemsOfHead(pending);
      assert ([Produced(pending[0])] + ItemsOf(pending[1..])) + Stream(c, next, asm, completion)
          == [Produced(pending[0])] + (ItemsOf(pending[1..]) + Stream(c, next, asm, completion));
    case Flushing(pending, asm, completion) =>
      ItemsOfHead(pending);
  }

  lemma ItemsOfHead(segments: seq<Segment>)
    requires segments != []
    ensures ItemsOf(segments) == [Produced(segments[0])] + ItemsOf(segments[1..])
  {
  }

  /** Only the last item of a complete production is not a segment. */
  ghost predicate Production(items: seq<ProductionItem>) {
    && items != []
    && (forall i :: 0 <= i < |items| - 1 ==> items[i].Produced?)
    && !items[|items| - 1].Produced?
  }

  lemma {:induction false} StreamIsProduction(c: Config, next: nat, asm: Assembly, completion: Option<Completion>)
    requires ValidConfig(c)
    ensures Production(Stream(c, next, asm, completion))
    decreases |c.modelEvents| - next
  {
    hide Pushed, Assembler.Finished;
    if next < |c.modelEvents| {
      match c.modelEvents[next]
      case TextDelta(text) =>
        StreamIsProduction(c, next + 1, Pushed(asm, text, c.maxSegmentChars), completion);
      case Completed(done) =>
        StreamIsProduction(c, next + 1, asm, Some(done));
      case Unsupported =>
    }
  }

  // ---- Synthesis ----

  /** The audio items a synthesis task still has to put. */
  function TaskRest(c: Config, segment: Segment, t: Task): seq<AudioItem> {
    match t
    case Pulling(next, expected, sawFinal) => Speech(c, segment, next, expected, sawFinal)
    case Holding(item, next, expected, sawFinal) =>
      if Terminal(item) then [item] else [item] + Speech(c, segment, next, expected, sawFinal)
    case TaskDone => []
  }

  lemma TaskPullKeepsRest(c: Config, segment: Segment, t: Task)
    requires t.Pulling?
    ensures TaskRest(c, segment, TaskPulled(c, segment, t)) == TaskRest(c, segment, t)
  {
  }

  ghost predicate Narration(items: seq<AudioItem>) {
    && items != []
    && (forall i :: 0 <= i < |items| - 1 ==> items[i].Audio?)
    && Terminal(items[|items| - 1])
  }

  lemma {:induction false} SpeechIsNarration(c: Config, segment: Segment, next: nat, expected: nat, sawFinal: bool)
    ensures Narration(Speech(c, segment, next, expected, sawFinal))
    decreases |c.speech(segment).chunks| - next
  {
    var script := c.speech(segment);
    if next < |script.chunks| && ChunkFault(c, segment, script.chunks[next], expected, sawFinal).None? {
      SpeechIsNarration(c, segment, next + 1, expected + 1, script.chunks[next].isFinal);
    }
  }

  /** Taken, queued and still to come: together the audio of one segment, in order. */
  ghost predicate JobOk(c: Config, j: Job) {
    && j.taken <= |AllAudio(c, j.segment)|
    && AllAudio(c, j.segment)[j.taken..] == j.audio + TaskRest(c, j.segment, j.task)
  }

  lemma NewJobOk(c: Config, segment: Segment)
    ensures JobOk(c, NewJob(segment))
  {
    var all := AllAudio(c, segment);
    assert all[0..] == [] + all;
  }

  lemma JobPullOk(c: Config, j: Job)
    requires JobOk(c, j) && j.task.Pulling?
    ensures JobOk(c, j.(task := TaskPulled(c, j.segment, j.task)))
  {
    hide Speech, TaskRest, TaskPulled;
    TaskPullKeepsRest(c, j.segment, j.task);
  }

  lemma JobPutOk(c: Config, j: Job)
    requires JobOk(c, j) && j.task.Holding?
    ensures JobOk(c, JobPut(j))
    ensures |TaskRest(c, j.segment, JobPut(j).task)| == |TaskRest(c, j.segment, j.task)| - 1
  {
    hide Speech, AllAudio;
    var later := TaskRest(c, j.segment, JobPut(j).task);
    assert TaskRest(c, j.segment, j.task) == [j.task.item] + later;
    AppendMoves(j.audio, j.task.item, later);
  }

  lemma AppendMoves<T>(front: seq<T>, x: T, back: seq<T>)
    ensures front + ([x] + back) == (front + [x]) + back
  {
  }

  lemma JobTakenOk(c: Config, j: Job)
    requires JobOk(c, j) && j.audio != []
    ensures j.taken < |AllAudio(c, j.segment)| && AllAudio(c, j.segment)[j.taken] == j.audio[0]
    ensures JobOk(c, JobTaken(j))
  {
    hide Speech, AllAudio, TaskRest;
    DropHead(AllAudio(c, j.segment), j.taken, j.audio, TaskRest(c, j.segment, j.task));
  }

  /** If `all` from `n` on is `queue` then `rest`, taking the head of `queue` moves `n` by one. */
  lemma DropHead<T>(all: seq<T>, n: nat, queue: seq<T>, rest: seq<T>)
    requires n <= |all| && all[n..] == queue + rest && queue != []
    ensures n < |all| && all[n] == queue[0]
    ensures all[n + 1..] == queue[1..] + rest
  {
    assert |all[n..]| == |queue| + |rest|;
    assert all[n..][0] == queue[0];
    assert all[n + 1..] == all[n..][1..];
    assert (queue + rest)[1..] == queue[1..] + rest;
  }

  // ---- The invariant, part by part ----

  /** `items` is the production that actually happens: all of it while the run is live, perhaps
      cut short by a cancellation once it is not. */
  ghost predicate ItemsOk(c: Config, live: bool, items: seq<ProductionItem>)
    requires ValidConfig(c)
  {
    Production(items) && (live ==> items == AllItems(c))
  }

  /** Items taken off the segment queue, when `n` jobs exist. */
  function Fetched(d: Dispatcher, n: nat): nat {
    if d.Fetching? then n else n + 1
  }

  ghost predicate FlowOk(c: Config, p: Producer, queue: seq<ProductionItem>, fetched: nat, items: seq<ProductionItem>)
    requires ValidConfig(c)
  {
    fetched <= |items| && items[fetched..] == queue + Rest(c, p)
  }

  ghost predicate DispatcherOk(d: Dispatcher, n: nat, items: seq<ProductionItem>) {
    && n < |items|
    && match d
       case Fetching => true
       case Acquiring(segment) => items[n] == Produced(segment)
       case PuttingJob(segment) => items[n] == Produced(segment)
       case PuttingLast(item) => n == |items| - 1 && items[n] == item
       case DispatcherDone => n == |items| - 1
  }

  ghost predicate JobsOk(c: Config, jobs: seq<Job>, items: seq<ProductionItem>) {
    && |jobs| < |items|
    && (forall k :: 0 <= k < |jobs| ==> items[k] == Produced(jobs[k].segment))
    && (forall k :: 0 <= k < |jobs| ==> JobOk(c, jobs[k]))
  }

  /** Whether the publisher has taken the last item of the output queue. */
  predicate LastTaken(p: Publisher) {
    (p.HoldOutput? && p.item.LastItem?) || p.AwaitTasks?
  }

  ghost predicate OutputOk(output: seq<OutputItem>, taken: nat, n: nat, d: Dispatcher, lastTaken: bool,
                           items: seq<ProductionItem>)
  {
    var hasLast := d.DispatcherDone? && !lastTaken;
    && items != []
    && taken <= n
    && (lastTaken ==> d.DispatcherDone? && taken == n)
    && |output| == n - taken + (if hasLast then 1 else 0)
    && (forall i :: 0 <= i < n - taken ==> output[i] == JobItem(taken + i))
    && (hasLast ==> output[n - taken] == LastItem(items[|items| - 1]))
  }

  predicate Spent(c: Config, j: Job) {
    j.taken == |AllAudio(c, j.segment)|
  }

  /** Every job before `limit` has been played to its end, and none from `next` on was touched. */
  ghost predicate Played(c: Config, jobs: seq<Job>, limit: nat, next: nat) {
    && limit <= next <= |jobs|
    && (forall k :: 0 <= k < limit ==> Spent(c, jobs[k]))
    && (forall k :: next <= k < |jobs| ==> jobs[k].taken == 0)
  }

  ghost predicate PublisherOk(c: Config, p: Publisher, taken: nat, jobs: seq<Job>, items: seq<ProductionItem>) {
    match p
    case AwaitOutput => Played(c, jobs, taken, taken)
    case HoldOutput(LastItem(item)) => Played(c, jobs, taken, taken) && items != [] && item == items[|items| - 1]
    case HoldOutput(JobItem(k)) => k == taken - 1 && Played(c, jobs, k, k)
    case AwaitAudio(k) => k == taken - 1 && Played(c, jobs, k, taken) && !Spent(c, jobs[k])
    case HoldAudio(k, item) =>
      && k == taken - 1 && Played(c, jobs, k, taken)
      && 0 < jobs[k].taken <= |AllAudio(c, jobs[k].segment)|
      && AllAudio(c, jobs[k].segment)[jobs[k].taken - 1] == item
    case AwaitTasks(plan) =>
      Played(c, jobs, taken, taken) && items != [] && items[|items| - 1] == ProductionFinished(plan)
    case Stopped(_) => true
  }

  /** What the run would still show, and how it would end, if it stays live. */
  ghost function Ahead(c: Config, p: Publisher, taken: nat, jobs: seq<Job>, items: seq<ProductionItem>): Trace {
    match p
    case AwaitOutput => Play(c, items, taken)
    case HoldOutput(LastItem(_)) => if items == [] then Trace([], Outcome.Abandoned) else Play(c, items, |items| - 1)
    case HoldOutput(JobItem(k)) => Play(c, items, k)
    case AwaitAudio(k) => AudioAhead(c, items, k, if k < |jobs| then jobs[k].taken else 0)
    case HoldAudio(k, _) =>
      AudioAhead(c, items, k, if k < |jobs| && jobs[k].taken > 0 then jobs[k].taken - 1 else 0)
    case AwaitTasks(plan) => Trace([UtteranceCompleted(plan)], Outcome.Finished)
    case Stopped(outcome) => Trace([], outcome)
  }

  function AudioAhead(c: Config, items: seq<ProductionItem>, k: nat, taken: nat): Trace {
    if k < |items| && items[k].Produced? then
      PlayAudio(c, items, k, AllAudio(c, items[k].segment), taken)
    else Trace([], Outcome.Abandoned)
  }

  /** Shown so far and still ahead: together the sequential play of `items`. */
  ghost predicate ShownOk(c: Config, visible: seq<Event>, ahead: Trace, items: seq<ProductionItem>) {
    Play(c, items, 0) == Trace(visible + ahead.events, ahead.outcome)
  }

  function Running(jobs: seq<Job>): (n: nat) {
    if jobs == [] then 0
    else Running(jobs[..|jobs| - 1]) + (if jobs[|jobs| - 1].task.TaskDone? then 0 else 1)
  }

  ghost predicate SlotsOk(c: Config, slots: nat, jobs: seq<Job>, d: Dispatcher) {
    slots + Running(jobs) + (if d.PuttingJob? then 1 else 0) == c.maxConcurrent
  }

  ghost predicate BoundsOk(c: Config, s: State) {
    && |s.segments| <= c.segmentCapacity
    && |s.output| <= c.maxConcurrent + 1
    && (forall k :: 0 <= k < |s.jobs| ==> |s.jobs[k].audio| <= c.audioCapacity)
    && SlotsOk(c, s.slots, s.jobs, s.dispatcher)
  }

  /** The tasks are where they should be. */
  ghost predicate TasksOk(c: Config, s: State, items: seq<ProductionItem>)
    requires ValidConfig(c)
  {
    && FlowOk(c, s.producer, s.segments, Fetched(s.dispatcher, |s.jobs|), items)
    && DispatcherOk(s.dispatcher, |s.jobs|, items)
    && JobsOk(c, s.jobs, items)
    && OutputOk(s.output, s.taken, |s.jobs|, s.dispatcher, LastTaken(s.publisher), items)
    && PublisherOk(c, s.publisher, s.taken, s.jobs, items)
  }

  /** A live run that nobody abandoned has shown, and will show, exactly the sequential play; any
      other run has shown the beginning of it. */
  ghost predicate RunShownOk(c: Config, s: State, items: seq<ProductionItem>)
    requires ValidConfig(c)
  {
    && s.visible <= Sequential(c).events
    && (s.live && s.publisher != Stopped(Outcome.Abandoned) ==>
          ShownOk(c, s.visible, Ahead(c, s.publisher, s.taken, s.jobs, items), items))
  }

  /** The invariant. */
  ghost predicate Inv(c: Config, s: State, items: seq<ProductionItem>)
    requires ValidConfig(c)
  {
    && ItemsOk(c, s.live, items)
    && BoundsOk(c, s)
    && (s.tokenCancelled ==> !s.live)
    && (s.publisher == Stopped(Outcome.Finished) ==> s.live)
    && (!s.publisher.Stopped? ==> TasksOk(c, s, items))
    && RunShownOk(c, s, items)
  }

  lemma InitInv(c: Config)
    requires ValidConfig(c)
    ensures Inv(c, Init(c), AllItems(c))
  {
    hide Stream, Play;
    var items := AllItems(c);
    StreamIsProduction(c, 0, Assembly([], []), None);
    assert ItemsOf([]) == [];
    assert items[0..] == [] + ([] + items);
    assert Play(c, items, 0).events == [] + Play(c, items, 0).events;
  }
}
