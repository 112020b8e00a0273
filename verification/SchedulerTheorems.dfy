/** What holds of every run of the presentation scheduler. */
module SchedulerTheorems {
  import opened Text
  import opened Presentation
  import opened SchedulerSpec
  import opened SchedulerInvariant
  import opened SchedulerSteps

  /** Log replay: folding everything the scheduler ever returned over an empty stage never starts a cue
      twice nor stops one that is not on stage, and ends with exactly the active leases; the event
      numbers strictly increase. */
  lemma LogReplaysToLeases(c: Config, generation: nat, calls: seq<Call>)
    requires ValidConfig(c) && ProperCalls(c, calls)
    ensures var s := After(c, generation, calls);
            && Replay(s.log) == Some(CuesOf(s.active))
            && forall i, j :: 0 <= i < j < |s.log| ==> s.log[i].sequence < s.log[j].sequence
  {
    hide After, LeasesOk, Handovers, PendingOk, HeldOk, Recovered, Replay, ValidConfig;
    ReachableInv(c, generation, calls);
  }

  /** Arbitration: at any time two leases differ in layer and share no resource, the layer index is
      exact, all leases are of the current generation, none is held while disconnected, and whoever
      was preempted made way, at that moment, for a cue of at least its priority. */
  lemma ArbitrationHolds(c: Config, generation: nat, calls: seq<Call>)
    requires ValidConfig(c) && ProperCalls(c, calls)
    ensures var s := After(c, generation, calls);
            && (forall a, b :: a in s.active && b in s.active && a != b ==>
                  && s.active[a].cue.layer != s.active[b].cue.layer
                  && s.active[a].cue.resources !! s.active[b].cue.resources)
            && (forall l, id :: (l in s.byLayer && s.byLayer[l] == id) <==> (id in s.active && s.active[id].cue.layer == l))
            && (forall id <- s.active :: s.active[id].cue.generation == s.generation)
            && (!s.connected ==> s.active == map[])
            && Handovers(s.log)
  {
    hide After, Handovers, PendingOk, HeldOk, Recovered, LogOk, ValidConfig, NeutralIdsOk;
    ReachableInv(c, generation, calls);
  }

  /** Neutral recovery: while connected, a layer that has held a cue since the renderer connected holds
      a live lease, or waits for its neutral cue because a live lease uses one of that cue's resources. */
  lemma NeutralRecovery(c: Config, generation: nat, calls: seq<Call>, l: Layer)
    requires ValidConfig(c) && ProperCalls(c, calls) && c.neutralCue.Some?
    requires After(c, generation, calls).connected && l in After(c, generation, calls).held
    ensures var s := After(c, generation, calls);
            || (l in s.byLayer && s.byLayer[l] in s.active)
            || (l in s.needsNeutral && exists id :: id in s.active && !(s.active[id].cue.resources !! c.neutralResources(l)))
  {
    hide After, Handovers, PendingOk, LogOk, ValidConfig, OfGeneration, NeutralIdsOk;
    ReachableInv(c, generation, calls);
    var s := After(c, generation, calls);
    LayerListed(l);
    if l !in s.byLayer { assert l in s.needsNeutral * ALL_LAYERS; }
  }
}
