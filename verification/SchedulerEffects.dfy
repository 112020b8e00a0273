/** What the remaining public operations of the scheduler do, whatever state they find. */
module SchedulerEffects {
  import opened Text
  import opened Presentation
  import opened SchedulerSpec
  import opened SchedulerInvariant
  import opened SchedulerSteps
  import opened SchedulerDecisions
  import opened SchedulerDue
  import Scheduler

  /** Neutral recovery keeps what is on stage and adds only neutral cues of the current generation. */
  ghost predicate OnlyNeutralsAdded(c: Config, s: State, r: State, now: real) {
    && r.generation == s.generation && r.connected == s.connected && r.pending == s.pending && r.markers == s.markers
    && forall id <- r.active ::
         (id in s.active && r.active[id] == s.active[id]) || IsNeutral(c, s.generation, now, r.active[id].cue)
  }

  lemma {:induction false} RestoreEachAdds(c: Config, s: State, layers: seq<Layer>, now: real)
    requires c.neutralCue.Some?
    ensures OnlyNeutralsAdded(c, s, RestoreEach(c, s, layers, now), now)
    decreases |layers|
  {
    hide ConflictsOf;
    if layers != [] {
      var r := RestoreLayer(c, s, layers[0], now);
      assert OnlyNeutralsAdded(c, s, r, now);
      RestoreEachAdds(c, r, layers[1..], now);
    }
  }

  lemma RestoreAdds(c: Config, s: State, now: real)
    ensures OnlyNeutralsAdded(c, s, Restore(c, s, now), now)
  {
    hide RestoreEach;
    if s.connected && c.neutralCue.Some? {
      RestoreEachAdds(c, s, LAYERS, now);
    }
  }

  ghost predicate OnlyNeutrals(c: Config, s: State, now: real) {
    forall id <- s.active :: IsNeutral(c, s.generation, now, s.active[id].cue)
  }

  /** Stopping every lease empties the stage. */
  lemma StopAllEmpties(c: Config, s: State, t: State, now: real, reason: StopReason, mark: set<Layer>)
    requires Inv(c, s) && t.active == s.active && t.byLayer == s.byLayer && t.log == s.log && t.sequence == s.sequence
    ensures var r := StopEach(t, SortedActive(s), now, reason, None, mark);
      r.active == map[] && StopFrame(t, r)
  {
    hide Handovers, PendingOk, HeldOk, OfGeneration, NeutralIdsOk, Replay, SortedActive, StopEach, Shape, LogOk, Listed;
    StopAll(s, t, now, reason, mark);
  }

  /** A newer generation takes over: only its neutral cues are on stage, and nothing older waits. An older or
      equal one changes nothing. */
  lemma AdvanceTakesOver(c: Config, generation: nat, calls: seq<Call>, next: nat, now: real)
    requires ValidConfig(c) && ProperCalls(c, calls)
    ensures var s := After(c, generation, calls); var r := Advance(c, s, next, now);
      if next <= s.generation then r == s
      else r.generation == next && r.pending == [] && r.markers == [] && r.connected == s.connected && OnlyNeutrals(c, r, now)
  {
    hide After, Inv, Restore, StopEach, SortedActive, ValidConfig, Recovered, IsNeutral;
    ReachableInv(c, generation, calls);
    var s := After(c, generation, calls);
    if next > s.generation {
      var t := s.(generation := next, pending := [], markers := []);
      StopAllEmpties(c, s, t, now, GenerationAdvanced, ALL_LAYERS);
      RestoreAdds(c, StopEach(t, SortedActive(s), now, GenerationAdvanced, None, ALL_LAYERS), now);
    }
  }

  /** A reset leaves only neutral cues on stage and nothing waiting. */
  lemma ResetClears(c: Config, generation: nat, calls: seq<Call>, now: real)
    requires ValidConfig(c) && ProperCalls(c, calls)
    ensures var s := After(c, generation, calls); var r := Reset(c, s, now);
      r.generation == s.generation && r.connected == s.connected && r.pending == [] && OnlyNeutrals(c, r, now)
  {
    hide After, Inv, Restore, StopEach, SortedActive, ValidConfig, Recovered, IsNeutral;
    ReachableInv(c, generation, calls);
    var s := After(c, generation, calls);
    StopAllEmpties(c, s, s.(pending := []), now, Cancelled, {});
    var stopped := StopEach(s.(pending := []), SortedActive(s), now, Cancelled, None, {});
    RestoreAdds(c, stopped.(needsNeutral := ALL_LAYERS, held := ALL_LAYERS), now);
  }

  /** Disconnecting for one of its two reasons empties everything; reconnecting brings back neutral cues only. */
  lemma ConnectionFollows(c: Config, generation: nat, calls: seq<Call>, reason: StopReason, now: real)
    requires ValidConfig(c) && ProperCalls(c, calls)
    ensures var s := After(c, generation, calls); var r := Disconnect(s, reason, now);
      if reason == Disconnected || reason == AdapterFailure
      then !r.connected && r.active == map[] && r.generation == s.generation && (s.connected ==> r.pending == [] && r.markers == [])
      else r == s
    ensures var s := After(c, generation, calls); var r := Reconnect(c, s, now);
      r.connected && r.generation == s.generation && (if s.connected then r == s else OnlyNeutrals(c, r, now))
  {
    hide After, Restore, StopEach, SortedActive, ValidConfig, Recovered, IsNeutral, LogOk, Handovers, PendingOk, HeldOk, Shape, OfGeneration, NeutralIdsOk;
    ReachableInv(c, generation, calls);
    var s := After(c, generation, calls);
    if s.connected {
      var quiet := s.(connected := false, pending := [], markers := [], needsNeutral := {}, held := {});
      StopAllEmpties(c, s, quiet, now, reason, {});
    } else {
      RestoreAdds(c, s.(connected := true, needsNeutral := ALL_LAYERS, held := ALL_LAYERS), now);
    }
  }

  /** A cancelled cue is neither waiting nor on stage, and if it was on stage its stop is logged with the
      reason given. */
  lemma CancelRemoves(c: Config, generation: nat, calls: seq<Call>, id: CueId, reason: StopReason, now: real)
    requires ValidConfig(c) && ProperCalls(c, calls) && !Reserved(c, id, After(c, generation, calls).generation)
    ensures var s := After(c, generation, calls); var r := Cancel(c, s, id, reason, now);
      && id !in r.active && (forall x | x in r.pending :: x.cue.id != id)
      && (id in s.active && Running(s.active[id], now) ==>
            exists i | |s.log| <= i < |r.log| :: r.log[i].Stopped? && r.log[i].cue == s.active[id].cue && r.log[i].reason == reason)
  {
    hide After, Inv, Restore, Expire, ValidConfig, Recovered, CancelIn, IsNeutral, Reserved;
    ReachableInv(c, generation, calls);
    var s := After(c, generation, calls);
    var e := Expire(s, now);
    ExpireKeeps(c, s, now);
    ExpireRemoves(c, s, now);
    ExpireLogs(s, now);
    CancelInRemoves(c, e, id, reason, now);
    var k := CancelIn(e, id, reason, now);
    RestoreAdds(c, k, now);
    NotNeutral(c, k.generation, now, id);
    RestoreLogs(c, k, now);
    var r := Restore(c, k, now);
    CancelKeeps(c, s, id, reason, now);
    if id in r.active {
      KeyedById(c, r, id);
    }
    if id in s.active && Running(s.active[id], now) {
      assert r.log[|e.log|] == k.log[|e.log|];
    }
  }

  lemma ExpireLogs(s: State, now: real)
    ensures s.log <= Expire(s, now).log && Expire(s, now).generation == s.generation
  {
    hide StopEach, ExpiredIn, SortedActive, TimelyIn, CoolAt, Stops;
    StopEachLogs(s, ExpiredIn(SortedActive(s), now), now, LeaseExpired, None, ALL_LAYERS);
    Scheduler.StopEachFrame(s, ExpiredIn(SortedActive(s), now), now, LeaseExpired, None, ALL_LAYERS);
  }

  lemma RestoreLogs(c: Config, s: State, now: real)
    ensures s.log <= Restore(c, s, now).log
  {
    hide RestoreEach;
    if s.connected && c.neutralCue.Some? {
      RestoreEachLogs(c, s, LAYERS, now);
    }
  }

  lemma CancelInRemoves(c: Config, s: State, id: CueId, reason: StopReason, now: real)
    requires Inv(c, s)
    ensures var r := CancelIn(s, id, reason, now);
      && id !in r.active && (forall x | x in r.pending :: x.cue.id != id) && r.generation == s.generation
      && (id in s.active ==>
            && |r.log| == |s.log| + 1 && s.log <= r.log && r.log[|s.log|].Stopped?
            && r.log[|s.log|].cue == s.active[id].cue && r.log[|s.log|].reason == reason)
  {
    hide LogOk, Handovers, HeldOk, PendingCueOk, NeutralIdsOk, OfGeneration, WithoutPending;
    WithoutGone(s.pending, id);
    forall x | x in s.pending && x.cue.id == id ensures HasPending(s.pending, id) && id !in s.active {
      var i :| 0 <= i < |s.pending| && s.pending[i] == x;
    }
    if HasPending(s.pending, id) {
      var i :| 0 <= i < |s.pending| && s.pending[i].cue.id == id;
      assert s.pending[i] in s.pending;
    }
  }

  lemma NotNeutral(c: Config, generation: nat, now: real, id: CueId)
    requires ValidConfig(c) && !Reserved(c, id, generation)
    ensures forall cue: Cue | IsNeutral(c, generation, now, cue) :: cue.id != id
  {
    forall cue: Cue | IsNeutral(c, generation, now, cue) ensures cue.id != id {
      var l: Layer :| cue == c.neutralCue.value(l, generation, now);
      assert NeutralCueOk(c, l, generation, cue);
    }
  }
}
