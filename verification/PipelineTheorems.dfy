/** What holds of every run of the dialogue pipeline, whatever the schedule. */
module PipelineTheorems {
  import opened Text
  import opened Assembler
  import opened Pipeline
  import opened PipelineInvariant
  import opened PipelineSteps
  import opened PipelineProgress

  /** Every reachable state satisfies the invariant, for the production `items` that happened. */
  lemma {:induction false} ReachableInv(c: Config, steps: seq<Step>) returns (items: seq<ProductionItem>)
    requires ValidConfig(c) && Execute(c, steps).Some?
    ensures Inv(c, Execute(c, steps).value, items)
    decreases |steps|
  {
    hide Inv, Next, Enabled, Init;
    if steps == [] {
      InitInv(c);
      items := AllItems(c);
    } else {
      var last := |steps| - 1;
      items := ReachableInv(c, steps[..last]);
      var s := Execute(c, steps[..last]).value;
      StepKeeps(c, s, steps[last], items);
      items := ItemsAfter(c, s, steps[last], items);
    }
  }

  /** Refinement: under every schedule the visible stream is a prefix of the sequential loop's
      output. A run that stopped while its generation was live stopped as the loop does, having
      shown all of it: either the plan was published last, or the loop's failure surfaced at its
      place. Only an abandoned or superseded run can stop in any other way. */
  lemma Refinement(c: Config, steps: seq<Step>)
    requires ValidConfig(c) && Execute(c, steps).Some?
    ensures var s := Execute(c, steps).value;
            && s.visible <= Sequential(c).events
            && (s.publisher.Stopped? && s.live && s.publisher.outcome != Outcome.Abandoned ==>
                  Sequential(c) == Trace(s.visible, s.publisher.outcome))
            && (s.publisher == Stopped(Outcome.Finished) ==> s.live)
  {
    hide Execute, Play, AllItems, BoundsOk, TasksOk;
    var items := ReachableInv(c, steps);
    var s := Execute(c, steps).value;
    assert s.visible + [] == s.visible;
  }

  /** Bounds: at most `maxConcurrent` syntheses are under way (counting the one being queued), and
      no queue ever exceeds its capacity. */
  lemma Bounds(c: Config, steps: seq<Step>)
    requires ValidConfig(c) && Execute(c, steps).Some?
    ensures var s := Execute(c, steps).value;
            && Running(s.jobs) + (if s.dispatcher.PuttingJob? then 1 else 0) <= c.maxConcurrent
            && |s.segments| <= c.segmentCapacity
            && |s.output| <= c.maxConcurrent + 1
            && forall k :: 0 <= k < |s.jobs| ==> |s.jobs[k].audio| <= c.audioCapacity
  {
    hide Execute, Running, TasksOk, RunShownOk, ItemsOk;
    var items := ReachableInv(c, steps);
  }

  /** Deadlock freedom: a reachable pipeline that has not stopped has a step of its own to take. */
  lemma NeverStuck(c: Config, steps: seq<Step>) returns (step: Step)
    requires ValidConfig(c) && Execute(c, steps).Some?
    requires !Execute(c, steps).value.publisher.Stopped?
    ensures Enabled(c, Execute(c, steps).value, step) && !External(step)
  {
    hide Execute, Inv, Enabled;
    var items := ReachableInv(c, steps);
    step := SomeTaskMoves(c, Execute(c, steps).value, items);
  }

  lemma {:induction false} WorkDone(c: Config, steps: seq<Step>) returns (items: seq<ProductionItem>)
    requires ValidConfig(c) && Execute(c, steps).Some?
    ensures Inv(c, Execute(c, steps).value, items)
    ensures |steps| + Work(c, Execute(c, steps).value, items) <= Work(c, Init(c), AllItems(c))
    decreases |steps|
  {
    hide Inv, Next, Enabled, Init, Work, AllItems;
    if steps == [] {
      InitInv(c);
      items := AllItems(c);
    } else {
      var last := |steps| - 1;
      items := WorkDone(c, steps[..last]);
      var s := Execute(c, steps[..last]).value;
      StepKeeps(c, s, steps[last], items);
      StepWorks(c, s, steps[last], items);
      items := ItemsAfter(c, s, steps[last], items);
    }
  }

  /** Every schedule is finite: no run is longer than the work the scripts hold, plus the stop. */
  lemma RunsAreBounded(c: Config, steps: seq<Step>)
    requires ValidConfig(c) && Execute(c, steps).Some?
    ensures |steps| <= Work(c, Init(c), AllItems(c))
  {
    hide Inv, Next, Enabled, Init, Work, AllItems;
    if steps != [] {
      var last := |steps| - 1;
      var items := WorkDone(c, steps[..last]);
      var s := Execute(c, steps[..last]).value;
      assert !s.publisher.Stopped? by { EnabledRuns(c, s, steps[last]); }
      WorkPositive(c, s, items);
    } else {
      InitInv(c);
      InitRuns(c);
      WorkPositive(c, Init(c), AllItems(c));
    }
  }

  lemma EnabledRuns(c: Config, s: State, step: Step)
    requires Enabled(c, s, step)
    ensures !s.publisher.Stopped?
  {
  }

  lemma InitRuns(c: Config)
    ensures !Init(c).publisher.Stopped?
  {
  }

  lemma {:induction false} StaysLive(c: Config, steps: seq<Step>)
    requires ValidConfig(c) && Execute(c, steps).Some?
    requires forall i :: 0 <= i < |steps| ==> !External(steps[i])
    ensures Execute(c, steps).value.live
    ensures Execute(c, steps).value.publisher != Stopped(Outcome.Abandoned)
    decreases |steps|
  {
    hide Enabled, Next;
    if steps != [] {
      var last := |steps| - 1;
      assert steps[last] in steps;
      StaysLive(c, steps[..last]);
      OneStaysLive(c, Execute(c, steps[..last]).value, steps[last]);
    }
  }

  lemma OneStaysLive(c: Config, s: State, step: Step)
    requires ValidConfig(c) && Enabled(c, s, step) && !External(step) && s.live
    ensures Next(c, s, step).live && Next(c, s, step).publisher != Stopped(Outcome.Abandoned)
  {
    hide Pulled, AfterPut, TaskPulled, JobPut, NewJob, JobTaken, AllTasksDone;
  }

  /** Total correctness: leave the pipeline alone and run it, in any order, until no task can move.
      It has then stopped, has shown exactly what the sequential loop shows, and ends as it ends. */
  lemma UndisturbedRunsMatch(c: Config, steps: seq<Step>)
    requires ValidConfig(c) && Execute(c, steps).Some?
    requires forall i :: 0 <= i < |steps| ==> !External(steps[i])
    requires forall step :: Enabled(c, Execute(c, steps).value, step) ==> External(step)
    ensures var s := Execute(c, steps).value;
            s.publisher.Stopped? && Sequential(c) == Trace(s.visible, s.publisher.outcome)
  {
    hide Execute, Enabled, Sequential;
    if !Execute(c, steps).value.publisher.Stopped? {
      var step := NeverStuck(c, steps);
    }
    StaysLive(c, steps);
    Refinement(c, steps);
  }

  /** Once a run is superseded or cancelled, nothing more becomes visible. */
  lemma {:induction false} SilentOnceSuperseded(c: Config, steps: seq<Step>, more: seq<Step>)
    requires ValidConfig(c) && Execute(c, steps).Some? && Execute(c, steps + more).Some?
    requires !Execute(c, steps).value.live
    ensures Execute(c, steps + more).value.visible == Execute(c, steps).value.visible
    ensures !Execute(c, steps + more).value.live
    decreases |more|
  {
    hide Execute, Enabled, Next;
    if more == [] {
      assert steps + more == steps;
    } else {
      var last := |more| - 1;
      ExecuteLast(c, steps, more);
      SilentOnceSuperseded(c, steps, more[..last]);
      OneStaysSilent(c, Execute(c, steps + more[..last]).value, more[last]);
    }
  }

  lemma ExecuteLast(c: Config, steps: seq<Step>, more: seq<Step>)
    requires ValidConfig(c) && more != [] && Execute(c, steps + more).Some?
    ensures var before := Execute(c, steps + more[..|more| - 1]);
      && before.Some? && Enabled(c, before.value, more[|more| - 1])
      && Execute(c, steps + more).value == Next(c, before.value, more[|more| - 1])
  {
    hide Enabled, Next;
    var last := |more| - 1;
    assert (steps + more)[..|steps| + last] == steps + more[..last];
    assert (steps + more)[|steps| + last] == more[last];
  }

  lemma OneStaysSilent(c: Config, s: State, step: Step)
    requires ValidConfig(c) && Enabled(c, s, step) && !s.live
    ensures !Next(c, s, step).live && Next(c, s, step).visible == s.visible
  {
    hide Pulled, AfterPut, TaskPulled, JobPut, NewJob, JobTaken, AllTasksDone;
  }
}
