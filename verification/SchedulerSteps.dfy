/** Each operation of the scheduler keeps its invariant. */
module SchedulerSteps {
  import opened Text
  import opened Presentation
  import opened SchedulerSpec
  import opened SchedulerInvariant

  // ---- The invariant ----

  ghost predicate PendingCueOk(c: Config, generation: nat, cue: Cue) {
    cue.generation == generation && !Reserved(c, cue.id, generation) && ValidCue(cue)
  }

  ghost predicate PendingOk(c: Config, generation: nat, active: map<CueId, Lease>, pending: seq<Pending>) {
    && (forall i :: 0 <= i < |pending| ==> PendingCueOk(c, generation, pending[i].cue) && pending[i].cue.id !in active)
    && (forall i, j :: 0 <= i < j < |pending| ==> pending[i].cue.id != pending[j].cue.id)
  }

  /** A neutral identifier is only ever active on its own layer. */
  ghost predicate NeutralIdsOk(c: Config, generation: nat, active: map<CueId, Lease>) {
    forall id, l :: id in active && c.neutralId(l, generation) == id ==> active[id].cue.layer == l
  }

  /** Every layer that has held a cue still holds one or is waiting for its neutral cue. */
  ghost predicate HeldOk(connected: bool, held: set<Layer>, byLayer: map<Layer, CueId>, needsNeutral: set<Layer>) {
    connected ==> forall l <- held :: l in byLayer || l in needsNeutral
  }

  /** Whoever is replaced is replaced, at that very moment, by a cue of at least its priority. */
  ghost predicate Handovers(log: seq<Event>) {
    forall i :: 0 <= i < |log| && log[i].Stopped? && log[i].replacedBy.Some? ==> Succeeded(log, i)
  }

  ghost predicate Succeeded(log: seq<Event>, i: nat)
    requires i < |log| && log[i].Stopped? && log[i].replacedBy.Some?
  {
    exists j :: i < j < |log| && Succeeds(log[i], log[j])
  }

  predicate Succeeds(stopped: Event, started: Event)
    requires stopped.Stopped? && stopped.replacedBy.Some?
  {
    && started.Started? && started.cue.id == stopped.replacedBy.value
    && started.at == stopped.at && started.cue.priority >= stopped.cue.priority
  }

  ghost predicate LeasesOk(c: Config, generation: nat, connected: bool, active: map<CueId, Lease>, byLayer: map<Layer, CueId>) {
    && Shape(active, byLayer)
    && OfGeneration(active, generation)
    && NeutralIdsOk(c, generation, active)
    && (!connected ==> active == map[])
  }

  ghost predicate Inv(c: Config, s: State) {
    && LeasesOk(c, s.generation, s.connected, s.active, s.byLayer)
    && LogOk(s.log, s.active, s.sequence)
    && Handovers(s.log)
    && PendingOk(c, s.generation, s.active, s.pending)
    && HeldOk(s.connected, s.held, s.byLayer, s.needsNeutral)
  }

  lemma InitInv(c: Config, generation: nat)
    ensures Inv(c, Init(generation))
  {
  }

  // ---- Small facts ----

  lemma FewerActive(c: Config, generation: nat, active: map<CueId, Lease>, gone: set<CueId>, pending: seq<Pending>)
    requires OfGeneration(active, generation) && NeutralIdsOk(c, generation, active) && PendingOk(c, generation, active, pending)
    ensures OfGeneration(active - gone, generation) && NeutralIdsOk(c, generation, active - gone)
    ensures PendingOk(c, generation, active - gone, pending)
  {
    hide Reserved;
  }

  lemma HandoverStops(log: seq<Event>, event: Event)
    requires Handovers(log) && (event.Stopped? ==> event.replacedBy.None?)
    ensures Handovers(log + [event])
  {
    var longer := log + [event];
    forall i | 0 <= i < |longer| && longer[i].Stopped? && longer[i].replacedBy.Some?
      ensures Succeeded(longer, i)
    {
      assert Succeeded(log, i);
      var j :| i < j < |log| && Succeeds(log[i], log[j]);
      assert Succeeds(longer[i], longer[j]);
    }
  }

  predicate StopOf(event: Event, lease: Lease, now: real, heir: Option<CueId>) {
    event.Stopped? && event.cue == lease.cue && event.at == now && event.replacedBy == heir
  }

  lemma {:induction false} StopEachLog(s: State, leases: seq<Lease>, now: real, reason: StopReason, heir: Option<CueId>, mark: set<Layer>)
    ensures var log := StopEach(s, leases, now, reason, heir, mark).log;
            && |log| == |s.log| + |leases|
            && (forall i :: 0 <= i < |s.log| ==> log[i] == s.log[i])
            && (forall i :: |s.log| <= i < |log| ==> StopOf(log[i], leases[i - |s.log|], now, heir))
    decreases |leases|
  {
    hide Removed;
    if leases != [] {
      var next := StopOne(s, leases[0], now, reason, heir, mark);
      assert next.log == s.log + [Stopped(s.sequence + 1, leases[0].cue, now, reason, heir)];
      StopEachLog(next, leases[1..], now, reason, heir, mark);
      assert next.log[|s.log|].cue == leases[0].cue;
    }
  }

  lemma {:induction false} StopEachHandovers(s: State, leases: seq<Lease>, now: real, reason: StopReason, mark: set<Layer>)
    requires Handovers(s.log)
    ensures Handovers(StopEach(s, leases, now, reason, None, mark).log)
    decreases |leases|
  {
    hide Handovers, Removed;
    if leases != [] {
      HandoverStops(s.log, Stopped(s.sequence + 1, leases[0].cue, now, reason, None));
      StopEachHandovers(StopOne(s, leases[0], now, reason, None, mark), leases[1..], now, reason, mark);
    }
  }

  /** Stopping leases without a successor keeps the invariant, provided their layers are marked. */
  lemma StopEachKeeps(c: Config, s: State, leases: seq<Lease>, now: real, reason: StopReason)
    requires Inv(c, s) && Listed(s.active, leases)
    ensures var r := StopEach(s, leases, now, reason, None, ALL_LAYERS);
            && Inv(c, r) && StopFrame(s, r)
            && r.active == s.active - IdsOf(leases)
            && r.byLayer == s.byLayer - LayersOf(leases)
  {
    hide Shape, LogOk, Handovers, Replay, StopEach, Listed, PendingOk, OfGeneration, NeutralIdsOk, IdsOf, LayersOf;
    StopEachEffect(s, leases, now, reason, None, ALL_LAYERS);
    StopEachHandovers(s, leases, now, reason, ALL_LAYERS);
    FewerActive(c, s.generation, s.active, IdsOf(leases), s.pending);
    MarkedHeld(s.connected, s.held, s.byLayer, s.needsNeutral, LayersOf(leases));
  }

  lemma MarkedHeld(connected: bool, held: set<Layer>, byLayer: map<Layer, CueId>, needsNeutral: set<Layer>, gone: set<Layer>)
    requires HeldOk(connected, held, byLayer, needsNeutral)
    ensures HeldOk(connected, held, byLayer - gone, needsNeutral + gone * ALL_LAYERS)
  {
    forall l | l in gone
      ensures l in gone * ALL_LAYERS
    {
      LayerListed(l);
    }
  }

  // ---- Starting a cue ----

  lemma StartShape(active: map<CueId, Lease>, byLayer: map<Layer, CueId>, lease: Lease)
    requires Shape(active, byLayer) && lease.cue.id !in active && lease.cue.layer !in byLayer
    requires forall id <- active :: active[id].cue.resources !! lease.cue.resources
    ensures Shape(active[lease.cue.id := lease], byLayer[lease.cue.layer := lease.cue.id])
  {
  }

  lemma OneMoreActive(c: Config, generation: nat, active: map<CueId, Lease>, lease: Lease, pending: seq<Pending>)
    requires OfGeneration(active, generation) && NeutralIdsOk(c, generation, active) && PendingOk(c, generation, active, pending)
    requires lease.cue.generation == generation && !HasPending(pending, lease.cue.id)
    requires forall l :: c.neutralId(l, generation) == lease.cue.id ==> l == lease.cue.layer
    ensures OfGeneration(active[lease.cue.id := lease], generation)
    ensures NeutralIdsOk(c, generation, active[lease.cue.id := lease])
    ensures PendingOk(c, generation, active[lease.cue.id := lease], pending)
  {
    hide Reserved;
  }

  lemma ClearOfLayer(active: map<CueId, Lease>, byLayer: map<Layer, CueId>, cue: Cue)
    requires Shape(active, byLayer) && forall id <- active :: !Conflict(active[id].cue, cue)
    ensures cue.layer !in byLayer
    ensures forall id <- active :: active[id].cue.resources !! cue.resources
  {
    if cue.layer in byLayer {
      var id := byLayer[cue.layer];
      assert id in active && Conflict(active[id].cue, cue);
    }
  }

  /** The parts of the invariant that installing a lease touches, given that its way is clear. */
  lemma StartKeepsLeases(c: Config, s: State, lease: Lease, now: real)
    requires s.connected && LeasesOk(c, s.generation, s.connected, s.active, s.byLayer)
    requires LogOk(s.log, s.active, s.sequence) && PendingOk(c, s.generation, s.active, s.pending)
    requires lease.cue.generation == s.generation && lease.cue.id !in s.active && !HasPending(s.pending, lease.cue.id)
    requires forall l :: c.neutralId(l, s.generation) == lease.cue.id ==> l == lease.cue.layer
    requires forall id <- s.active :: !Conflict(s.active[id].cue, lease.cue)
    ensures var r := StartOne(s, lease, now);
            && LeasesOk(c, r.generation, r.connected, r.active, r.byLayer)
            && LogOk(r.log, r.active, r.sequence)
            && PendingOk(c, r.generation, r.active, r.pending)
  {
    hide LogOk, PendingOk, OfGeneration, NeutralIdsOk, HasPending, Conflict, Shape;
    ClearOfLayer(s.active, s.byLayer, lease.cue);
    StartShape(s.active, s.byLayer, lease);
    OneMoreActive(c, s.generation, s.active, lease, s.pending);
    StartLog(s.log, s.active, s.sequence, lease, now);
  }

  /** After the conflicts of `cue` are stopped nothing conflicts with it. */
  lemma WayIsClear(s: State, cue: Cue)
    requires Shape(s.active, s.byLayer)
    ensures forall id <- s.active - IdsOf(ConflictsOf(s, cue)) :: !Conflict(s.active[id].cue, cue)
  {
    hide ConflictsOf, Conflict;
    ConflictsAll(s, cue);
    var leases := ConflictsOf(s, cue);
    forall id | id in s.active && Conflict(s.active[id].cue, cue)
      ensures id in IdsOf(leases)
    {
      assert s.active[id] in leases;
      var i :| 0 <= i < |leases| && leases[i] == s.active[id];
      assert leases[i].cue.id == id;
    }
  }

  lemma HandoverBlock(log: seq<Event>, leases: seq<Lease>, cue: Cue, sequence: nat, now: real, longer: seq<Event>)
    requires Handovers(log) && !Blocked(leases, cue) && |longer| == |log| + |leases|
    requires forall i :: 0 <= i < |log| ==> longer[i] == log[i]
    requires forall i :: |log| <= i < |longer| ==> StopOf(longer[i], leases[i - |log|], now, Some(cue.id))
    ensures Handovers(longer + [Started(sequence, cue, now)])
  {
    var all := longer + [Started(sequence, cue, now)];
    forall i | 0 <= i < |all| && all[i].Stopped? && all[i].replacedBy.Some?
      ensures Succeeded(all, i)
    {
      if i < |log| {
        assert Succeeded(log, i);
        var j :| i < j < |log| && Succeeds(log[i], log[j]);
        assert Succeeds(all[i], all[j]);
      } else {
        assert all[i] == longer[i];
        assert Succeeds(all[i], all[|longer|]);
      }
    }
  }

  lemma HeldAfterBegin(held: set<Layer>, byLayer: map<Layer, CueId>, needsNeutral: set<Layer>, gone: set<Layer>, cue: Cue)
    requires HeldOk(true, held, byLayer, needsNeutral)
    ensures HeldOk(true, held + {cue.layer}, (byLayer - gone)[cue.layer := cue.id],
                   needsNeutral + gone * (ALL_LAYERS - {cue.layer}) - {cue.layer})
  {
    forall l | l in gone && l != cue.layer
      ensures l in gone * (ALL_LAYERS - {cue.layer})
    {
      LayerListed(l);
    }
  }

  /** A cue that may start: new, of the current generation, and not outranked by what it conflicts with. */
  ghost predicate MayBegin(c: Config, s: State, cue: Cue) {
    && s.connected && PendingCueOk(c, s.generation, cue)
    && cue.id !in s.active && !HasPending(s.pending, cue.id)
    && !Blocked(ConflictsOf(s, cue), cue)
  }

  lemma BeginKeeps(c: Config, s: State, cue: Cue, now: real)
    requires Inv(c, s) && MayBegin(c, s, cue)
    ensures Inv(c, Begin(c, s, cue, now))
    ensures Begin(c, s, cue, now).generation == s.generation && Begin(c, s, cue, now).connected
    ensures Begin(c, s, cue, now).pending == s.pending
  {
    hide Shape, LogOk, Handovers, StopEach, ConflictsOf, PendingOk, OfGeneration, NeutralIdsOk, IdsOf, LayersOf, HasPending, Blocked, Conflict, HeldOk, Listed, Charged;
    var leases, mark := ConflictsOf(s, cue), ALL_LAYERS - {cue.layer};
    ConflictsAll(s, cue);
    StopEachEffect(s, leases, now, Preempted, Some(cue.id), mark);
    StopEachLog(s, leases, now, Preempted, Some(cue.id), mark);
    var cleared := StopEach(s, leases, now, Preempted, Some(cue.id), mark);
    FewerActive(c, s.generation, s.active, IdsOf(leases), s.pending);
    WayIsClear(s, cue);
    var lease := Lease(cue, now, ExpiryOf(cue, now));
    NotReserved(c, s.generation, cue);
    StartKeepsLeases(c, cleared, lease, now);
    HandoverBlock(s.log, leases, cue, cleared.sequence + 1, now, cleared.log);
    HeldAfterBegin(s.held, s.byLayer, s.needsNeutral, LayersOf(leases), cue);
    ChargedFrame(c, StartOne(cleared, lease, now), cue, now);
  }

  lemma NotReserved(c: Config, generation: nat, cue: Cue)
    requires PendingCueOk(c, generation, cue)
    ensures forall l :: c.neutralId(l, generation) != cue.id
  {
  }

  /** Limits bookkeeping touches nothing the invariant speaks of. */
  lemma ChargedFrame(c: Config, s: State, cue: Cue, now: real)
    ensures var r := Charged(c, s, cue, now);
            r == s.(cooldownUntil := r.cooldownUntil, globalStarts := r.globalStarts, layerStarts := r.layerStarts)
    ensures Inv(c, s) ==> Inv(c, Charged(c, s, cue, now))
  {
    hide LeasesOk, LogOk, Handovers, PendingOk, HeldOk;
  }

  lemma LimitsFrame(c: Config, s: State, layer: Layer, now: real)
    ensures var r := WithinLimits(c, s, layer, now).state;
            r == s.(globalStarts := r.globalStarts, layerStarts := r.layerStarts)
  {
    hide Pruned;
  }

  lemma InvFrame(c: Config, s: State, r: State)
    requires Inv(c, s)
    requires r.generation == s.generation && r.connected == s.connected && r.active == s.active && r.byLayer == s.byLayer
    requires r.log == s.log && r.sequence == s.sequence && r.pending == s.pending && r.held == s.held
    requires r.needsNeutral == s.needsNeutral
    ensures Inv(c, r)
  {
    hide LeasesOk, LogOk, Handovers, PendingOk, HeldOk;
  }

  /** The shared frame of everything that may start cues. */
  ghost predicate SameEra(s: State, r: State) {
    r.generation == s.generation && r.connected == s.connected
  }

  lemma AttemptKeeps(c: Config, s: State, cue: Cue, now: real)
    requires Inv(c, s) && PendingCueOk(c, s.generation, cue)
    requires cue.id !in s.active && !HasPending(s.pending, cue.id)
    ensures Inv(c, AttemptStart(c, s, cue, now).state)
    ensures SameEra(s, AttemptStart(c, s, cue, now).state)
    ensures AttemptStart(c, s, cue, now).state.pending == s.pending
  {
    hide Inv, Begin, WithinLimits, SortLeases, Conflicting, LeasesIn, Blocked, HasPending, PendingCueOk;
    assert cue.generation == s.generation by { assert PendingCueOk(c, s.generation, cue); PendingGeneration(c, s.generation, cue); }
    if s.connected && !Blocked(ConflictsOf(s, cue), cue) {
      if !Limited(cue) {
        BeginKeeps(c, s, cue, now);
      } else {
        var checked := WithinLimits(c, s, cue.layer, now).state;
        LimitsFrame(c, s, cue.layer, now);
        InvFrame(c, s, checked);
        BeginKeeps(c, checked, cue, now);
      }
    }
  }

  lemma PendingGeneration(c: Config, generation: nat, cue: Cue)
    requires PendingCueOk(c, generation, cue)
    ensures cue.generation == generation
  {
  }

  // ---- Neutral recovery ----

  /** A layer waiting for its neutral cue is free and some live lease holds one of that cue's resources. */
  ghost predicate Waiting(c: Config, active: map<CueId, Lease>, byLayer: map<Layer, CueId>, l: Layer) {
    l !in byLayer && Obstructed(c, active, l)
  }

  ghost predicate Obstructed(c: Config, active: map<CueId, Lease>, l: Layer) {
    exists id :: id in active && !(active[id].cue.resources !! c.neutralResources(l))
  }

  ghost predicate WaitingIn(c: Config, s: State, layers: set<Layer>) {
    forall l <- s.needsNeutral * layers :: Waiting(c, s.active, s.byLayer, l)
  }

  /** Every layer that needs its neutral cue is kept from it by a resource in use. */
  ghost predicate Recovered(c: Config, s: State) {
    s.connected && c.neutralCue.Some? ==> WaitingIn(c, s, ALL_LAYERS)
  }

  lemma RestoreLayerKeeps(c: Config, s: State, l: Layer, now: real, done: set<Layer>)
    requires ValidConfig(c) && c.neutralCue.Some? && s.connected && Inv(c, s) && WaitingIn(c, s, done)
    ensures var r := RestoreLayer(c, s, l, now);
            Inv(c, r) && SameEra(s, r) && WaitingIn(c, r, done + {l}) && r.pending == s.pending
  {
    hide LogOk, Shape, Handovers, PendingOk, OfGeneration, NeutralIdsOk, SortLeases, Conflicting, LeasesIn, Conflict, Listed, Reserved;
    if l in s.needsNeutral && l !in s.byLayer {
      var cue := c.neutralCue.value(l, s.generation, now);
      assert NeutralCueOk(c, l, s.generation, cue);
      if ConflictsOf(s, cue) != [] {
        ObstructedBy(c, s, cue, l);
      } else {
        NeutralStarts(c, s, cue, l, now);
        StartWaits(c, s, Lease(cue, now, None), done);
      }
    } else if l in s.needsNeutral {
      DropNeed(s, l);
    }
  }

  lemma ObstructedBy(c: Config, s: State, cue: Cue, l: Layer)
    requires Shape(s.active, s.byLayer) && l !in s.byLayer
    requires cue.layer == l && cue.resources == c.neutralResources(l) && ConflictsOf(s, cue) != []
    ensures Obstructed(c, s.active, l)
  {
    hide ConflictsOf;
    ConflictsAll(s, cue);
    var x := ConflictsOf(s, cue)[0];
    assert x in ConflictsOf(s, cue);
    assert x.cue.id in s.active && s.active[x.cue.id] == x;
    assert x.cue.layer in s.byLayer;
  }

  lemma NeutralIdFree(c: Config, s: State, l: Layer)
    requires LeasesOk(c, s.generation, s.connected, s.active, s.byLayer) && PendingOk(c, s.generation, s.active, s.pending)
    requires l !in s.byLayer
    ensures c.neutralId(l, s.generation) !in s.active
    ensures !HasPending(s.pending, c.neutralId(l, s.generation))
  {
  }

  lemma NothingConflicts(s: State, cue: Cue)
    requires Shape(s.active, s.byLayer) && ConflictsOf(s, cue) == []
    ensures forall id <- s.active :: !Conflict(s.active[id].cue, cue)
  {
    hide ConflictsOf, Conflict;
    ConflictsAll(s, cue);
  }

  lemma NeutralStarts(c: Config, s: State, cue: Cue, l: Layer, now: real)
    requires ValidConfig(c) && Inv(c, s) && s.connected && l !in s.byLayer
    requires NeutralCueOk(c, l, s.generation, cue) && ConflictsOf(s, cue) == []
    ensures Inv(c, StartOne(s, Lease(cue, now, None), now))
    ensures cue.id !in s.active
  {
    hide LogOk, Shape, Handovers, PendingOk, OfGeneration, NeutralIdsOk, ConflictsOf, Conflict, HasPending;
    NeutralIdFree(c, s, l);
    NothingConflicts(s, cue);
    StartKeepsLeases(c, s, Lease(cue, now, None), now);
    HandoverStops(s.log, Started(s.sequence + 1, cue, now));
  }

  lemma StartWaits(c: Config, s: State, lease: Lease, done: set<Layer>)
    requires WaitingIn(c, s, done) && lease.cue.id !in s.active
    ensures WaitingIn(c, StartOne(s, lease, lease.startedAt), done + {lease.cue.layer})
  {
    var r := StartOne(s, lease, lease.startedAt);
    forall l | l in r.needsNeutral * (done + {lease.cue.layer})
      ensures Waiting(c, r.active, r.byLayer, l)
    {
      assert l in s.needsNeutral * done;
      assert Waiting(c, s.active, s.byLayer, l);
      var id :| id in s.active && !(s.active[id].cue.resources !! c.neutralResources(l));
      assert id in r.active && r.active[id] == s.active[id];
    }
  }

  lemma DropNeed(s: State, l: Layer)
    requires l in s.byLayer && HeldOk(s.connected, s.held, s.byLayer, s.needsNeutral)
    ensures HeldOk(s.connected, s.held, s.byLayer, s.needsNeutral - {l})
  {
  }

  lemma {:induction false} RestoreEachKeeps(c: Config, s: State, layers: seq<Layer>, now: real, done: set<Layer>)
    requires ValidConfig(c) && c.neutralCue.Some? && s.connected && Inv(c, s) && WaitingIn(c, s, done)
    ensures var r := RestoreEach(c, s, layers, now);
            && Inv(c, r) && SameEra(s, r) && r.pending == s.pending
            && WaitingIn(c, r, done + set l | l in layers)
    decreases |layers|
  {
    hide Inv, RestoreLayer, WaitingIn, ValidConfig;
    if layers == [] {
      assert done + (set l | l in layers) == done;
    } else {
      RestoreLayerKeeps(c, s, layers[0], now, done);
      RestoreEachKeeps(c, RestoreLayer(c, s, layers[0], now), layers[1..], now, done + {layers[0]});
      assert done + (set l | l in layers) == done + {layers[0]} + set l | l in layers[1..];
    }
  }

  /** Neutral recovery keeps the invariant and leaves a layer waiting only where a resource is in use. */
  lemma RestoreKeeps(c: Config, s: State, now: real)
    requires ValidConfig(c) && Inv(c, s)
    ensures var r := Restore(c, s, now);
            Inv(c, r) && SameEra(s, r) && Recovered(c, r) && r.pending == s.pending
  {
    hide Inv, RestoreEach, ValidConfig;
    if s.connected && c.neutralCue.Some? {
      RestoreEachKeeps(c, s, LAYERS, now, {});
      LayersAreAll();
    }
  }

  lemma LayersAreAll()
    ensures (set l | l in LAYERS) == ALL_LAYERS
    ensures {} + (set l | l in LAYERS) == ALL_LAYERS
  {
    forall l: Layer
      ensures l in LAYERS && l in ALL_LAYERS
    {
      LayerListed(l);
    }
  }

  // ---- Expiry and pending cues ----

  /** `sub` keeps some of the pending cues, in their order. */
  ghost predicate Fewer(pending: seq<Pending>, sub: seq<Pending>) {
    && (forall i :: 0 <= i < |sub| ==> HasCue(pending, sub[i].cue))
    && (forall i, j :: 0 <= i < j < |sub| ==> sub[i].cue.id != sub[j].cue.id)
  }

  ghost predicate HasCue(pending: seq<Pending>, cue: Cue) {
    exists k :: 0 <= k < |pending| && pending[k].cue == cue
  }

  lemma FewerPending(c: Config, generation: nat, active: map<CueId, Lease>, pending: seq<Pending>, sub: seq<Pending>)
    requires PendingOk(c, generation, active, pending) && Fewer(pending, sub)
    ensures PendingOk(c, generation, active, sub)
  {
    hide PendingCueOk;
    forall i | 0 <= i < |sub|
      ensures PendingCueOk(c, generation, sub[i].cue) && sub[i].cue.id !in active
    {
      var k :| 0 <= k < |pending| && pending[k].cue == sub[i].cue;
    }
  }

  ghost predicate DistinctIds(pending: seq<Pending>) {
    forall i, j :: 0 <= i < j < |pending| ==> pending[i].cue.id != pending[j].cue.id
  }

  lemma {:induction false} TimelyFewer(pending: seq<Pending>, now: real)
    requires DistinctIds(pending)
    ensures DistinctIds(TimelyIn(pending, now))
    ensures forall p :: p in TimelyIn(pending, now) <==> p in pending && !TooLate(p.cue, now)
  {
    hide TooLate;
    if pending != [] {
      TimelyFewer(pending[1..], now);
      FirstDistinct(pending, TimelyIn(pending[1..], now));
    }
  }

  lemma {:induction false} WithoutFewer(pending: seq<Pending>, id: CueId)
    requires DistinctIds(pending)
    ensures DistinctIds(WithoutPending(pending, id))
    ensures forall p :: p in WithoutPending(pending, id) <==> p in pending && p.cue.id != id
  {
    if pending != [] {
      WithoutFewer(pending[1..], id);
      FirstDistinct(pending, WithoutPending(pending[1..], id));
    }
  }

  lemma FirstDistinct(pending: seq<Pending>, sub: seq<Pending>)
    requires DistinctIds(pending) && pending != [] && DistinctIds(sub)
    requires forall p :: p in sub ==> p in pending[1..]
    ensures DistinctIds([pending[0]] + sub)
  {
    forall j | 0 <= j < |sub|
      ensures sub[j].cue.id != pending[0].cue.id
    {
      assert sub[j] in sub;
    }
  }

  lemma SubsetFewer(pending: seq<Pending>, sub: seq<Pending>)
    requires DistinctIds(sub) && forall p :: p in sub ==> p in pending
    ensures Fewer(pending, sub)
  {
    forall i | 0 <= i < |sub|
      ensures HasCue(pending, sub[i].cue)
    {
      assert sub[i] in sub;
      var k :| 0 <= k < |pending| && pending[k] == sub[i];
    }
  }

  lemma {:induction false} BoundSame(pending: seq<Pending>, marker: Marker)
    ensures |BoundAll(pending, marker)| == |pending|
    ensures forall i :: 0 <= i < |pending| ==> BoundAll(pending, marker)[i].cue == pending[i].cue
  {
    if pending != [] { BoundSame(pending[1..], marker); }
  }

  lemma ExpireKeeps(c: Config, s: State, now: real)
    requires Inv(c, s)
    ensures Inv(c, Expire(s, now)) && SameEra(s, Expire(s, now))
  {
    hide LogOk, Shape, Handovers, PendingOk, OfGeneration, NeutralIdsOk, HeldOk, SortedActive, ExpiredIn, StopEach, Listed, TimelyIn, DistinctIds, Fewer, CoolAt;
    SortedActiveAll(s);
    var expired := ExpiredIn(SortedActive(s), now);
    ExpiredListed(s.active, SortedActive(s), now);
    StopEachKeeps(c, s, expired, now, LeaseExpired);
    var r := StopEach(s, expired, now, LeaseExpired, None, ALL_LAYERS);
    PendingDistinct(c, s.generation, s.active, s.pending);
    TimelyFewer(s.pending, now);
    SubsetFewer(s.pending, TimelyIn(s.pending, now));
    FewerPending(c, r.generation, r.active, s.pending, TimelyIn(s.pending, now));
  }

  lemma PendingDistinct(c: Config, generation: nat, active: map<CueId, Lease>, pending: seq<Pending>)
    requires PendingOk(c, generation, active, pending)
    ensures DistinctIds(pending)
  {
  }

  // ---- Starting what is due ----

  lemma {:induction false} DueSubset(pending: seq<Pending>, now: real)
    requires DistinctIds(pending)
    ensures DistinctIds(DueIn(pending, now))
    ensures forall p :: p in DueIn(pending, now) <==> p in pending && Due(p, now)
  {
    hide Due;
    if pending != [] {
      DueSubset(pending[1..], now);
      FirstDistinct(pending, DueIn(pending[1..], now));
    }
  }

  lemma {:induction false} InsertDueSame(x: Pending, s: seq<Pending>)
    ensures forall p :: p in InsertDue(x, s) <==> p == x || p in s
  {
    hide Sooner;
    if s != [] && !Sooner(x, s[0]) {
      InsertDueSame(x, s[1..]);
    }
  }

  lemma {:induction false} SortDueSame(s: seq<Pending>)
    ensures forall p :: p in SortDue(s) <==> p in s
  {
    hide InsertDue;
    if s != [] {
      SortDueSame(s[1..]);
      InsertDueSame(s[0], SortDue(s[1..]));
    }
  }

  lemma PendingAt(c: Config, s: State, id: CueId)
    requires Inv(c, s) && HasPending(s.pending, id)
    ensures exists i :: 0 <= i < |s.pending| && s.pending[i].cue.id == id && PendingCueOk(c, s.generation, s.pending[i].cue)
    ensures id !in s.active
  {
    hide PendingCueOk, LeasesOk, LogOk, Handovers, HeldOk;
  }

  lemma DropPending(c: Config, s: State, id: CueId)
    requires Inv(c, s)
    ensures Inv(c, s.(pending := WithoutPending(s.pending, id)))
    ensures !HasPending(WithoutPending(s.pending, id), id)
  {
    hide PendingCueOk, LeasesOk, LogOk, Handovers, HeldOk, WithoutPending, DistinctIds, PendingOk, Fewer;
    PendingDistinct(c, s.generation, s.active, s.pending);
    WithoutFewer(s.pending, id);
    SubsetFewer(s.pending, WithoutPending(s.pending, id));
    FewerPending(c, s.generation, s.active, s.pending, WithoutPending(s.pending, id));
  }

  lemma StartNextKeeps(c: Config, b: Batch, p: Pending, now: real)
    requires Inv(c, b.state) && PendingCueOk(c, b.state.generation, p.cue)
    ensures Inv(c, StartNext(c, b, p, now).state) && SameEra(b.state, StartNext(c, b, p, now).state)
  {
    hide Inv, PendingCueOk, AttemptStart, WithoutPending, HasPending;
    if HasPending(b.state.pending, p.cue.id) {
      PendingAt(c, b.state, p.cue.id);
      DropPending(c, b.state, p.cue.id);
      AttemptKeeps(c, b.state.(pending := WithoutPending(b.state.pending, p.cue.id)), p.cue, now);
    }
  }

  lemma {:induction false} StartEachKeeps(c: Config, b: Batch, due: seq<Pending>, now: real)
    requires Inv(c, b.state)
    requires forall i :: 0 <= i < |due| ==> PendingCueOk(c, b.state.generation, due[i].cue)
    ensures Inv(c, StartEach(c, b, due, now).state) && SameEra(b.state, StartEach(c, b, due, now).state)
    decreases |due|
  {
    hide Inv, PendingCueOk, StartNext;
    if due != [] {
      StartNextKeeps(c, b, due[0], now);
      StartEachKeeps(c, StartNext(c, b, due[0], now), due[1..], now);
    }
  }

  lemma StartDueKeeps(c: Config, s: State, now: real)
    requires Inv(c, s)
    ensures Inv(c, StartDue(c, s, now).state) && SameEra(s, StartDue(c, s, now).state)
  {
    hide LeasesOk, LogOk, Handovers, HeldOk, PendingCueOk, StartEach, SortDue, DueIn;
    PendingDistinct(c, s.generation, s.active, s.pending);
    DueSubset(s.pending, now);
    SortDueSame(DueIn(s.pending, now));
    var due := SortDue(DueIn(s.pending, now));
    forall i | 0 <= i < |due|
      ensures PendingCueOk(c, s.generation, due[i].cue)
    {
      assert due[i] in due;
      assert due[i] in s.pending;
    }
    StartEachKeeps(c, Batch(s, []), due, now);
  }

  // ---- Public operations ----

  lemma SubmitKeeps(c: Config, s: State, cue: Cue, now: real)
    requires ValidConfig(c) && Inv(c, s) && ValidCue(cue) && !Reserved(c, cue.id, cue.generation)
    ensures Inv(c, Submit(c, s, cue, now).state) && Recovered(c, Submit(c, s, cue, now).state)
  {
    hide Inv, ValidConfig, Recovered, Restore, Expire, Admit, Reserved;
    ExpireKeeps(c, s, now);
    AdmitKeeps(c, Expire(s, now), cue, now);
    RestoreKeeps(c, Admit(c, Expire(s, now), cue, now).state, now);
  }

  lemma AdmitKeeps(c: Config, s: State, cue: Cue, now: real)
    requires Inv(c, s) && ValidCue(cue) && !Reserved(c, cue.id, cue.generation)
    ensures Inv(c, Admit(c, s, cue, now).state)
  {
    hide LeasesOk, LogOk, Handovers, HeldOk, PendingOk, AttemptStart, Reserved, HasPending, DueTime;
    if Refusal(s, cue, now).None? {
      if cue.binding.None? {
        AttemptKeeps(c, s, cue, now);
      } else if |s.pending| < c.maxPending {
        LongerSequence(s.log, s.active, s.sequence);
        var queued := s.(sequence := s.sequence + 1);
        AttemptKeeps(c, queued, cue, now);
        MorePending(c, s.generation, s.active, s.pending, Pending(cue, s.sequence + 1, DueTime(s, cue)));
      }
    }
  }

  lemma LongerSequence(log: seq<Event>, active: map<CueId, Lease>, sequence: nat)
    requires LogOk(log, active, sequence)
    ensures LogOk(log, active, sequence + 1)
  {
    hide Replay;
  }

  lemma MorePending(c: Config, generation: nat, active: map<CueId, Lease>, pending: seq<Pending>, p: Pending)
    requires PendingOk(c, generation, active, pending) && PendingCueOk(c, generation, p.cue)
    requires p.cue.id !in active && !HasPending(pending, p.cue.id)
    ensures PendingOk(c, generation, active, pending + [p])
  {
    hide PendingCueOk;
  }

  lemma TickKeeps(c: Config, s: State, now: real)
    requires ValidConfig(c) && Inv(c, s)
    ensures Inv(c, Tick(c, s, now).state) && Recovered(c, Tick(c, s, now).state)
  {
    hide Inv, ValidConfig, Recovered, Restore, Expire, StartDue;
    ExpireKeeps(c, s, now);
    StartDueKeeps(c, Expire(s, now), now);
    RestoreKeeps(c, StartDue(c, Expire(s, now), now).state, now);
  }

  lemma NotifyKeeps(c: Config, s: State, marker: Marker, now: real)
    requires ValidConfig(c) && Inv(c, s) && Recovered(c, s)
    ensures Inv(c, NotifyAudio(c, s, marker, now).state) && Recovered(c, NotifyAudio(c, s, marker, now).state)
  {
    hide Inv, ValidConfig, Recovered, Restore, Expire, StartDue, Noted;
    if s.connected && marker.generation == s.generation {
      ExpireKeeps(c, s, now);
      NotedKeeps(c, Expire(s, now), marker);
      var noted := Noted(c, Expire(s, now), marker);
      StartDueKeeps(c, noted, now);
      RestoreKeeps(c, StartDue(c, noted, now).state, now);
    }
  }

  lemma NotedKeeps(c: Config, s: State, marker: Marker)
    requires Inv(c, s)
    ensures Inv(c, Noted(c, s, marker))
  {
    hide LeasesOk, LogOk, Handovers, HeldOk, PendingCueOk, BoundAll, WithoutMarker;
    BoundSame(s.pending, marker);
  }

  lemma CancelKeeps(c: Config, s: State, id: CueId, reason: StopReason, now: real)
    requires ValidConfig(c) && Inv(c, s)
    ensures Inv(c, Cancel(c, s, id, reason, now)) && Recovered(c, Cancel(c, s, id, reason, now))
  {
    hide Inv, ValidConfig, Recovered, Restore, Expire, CancelIn;
    ExpireKeeps(c, s, now);
    CancelInKeeps(c, Expire(s, now), id, reason, now);
    RestoreKeeps(c, CancelIn(Expire(s, now), id, reason, now), now);
  }

  lemma CancelInKeeps(c: Config, s: State, id: CueId, reason: StopReason, now: real)
    requires Inv(c, s)
    ensures Inv(c, CancelIn(s, id, reason, now))
  {
    hide LogOk, Handovers, HeldOk, PendingOk, HasPending, WithoutPending, StopOne, IdsOf, LayersOf;
    if HasPending(s.pending, id) {
      DropPending(c, s, id);
    } else if id in s.active {
      var lease := s.active[id];
      assert Listed(s.active, [lease]);
      StopEachKeeps(c, s, [lease], now, reason);
      assert StopEach(s, [lease], now, reason, None, ALL_LAYERS) == StopOne(s, lease, now, reason, None, ALL_LAYERS);
    }
  }

  /** Stopping every lease leaves an empty stage. */
  lemma StopAll(s: State, t: State, now: real, reason: StopReason, mark: set<Layer>)
    requires Shape(s.active, s.byLayer) && LogOk(s.log, s.active, s.sequence) && Handovers(s.log)
    requires t.active == s.active && t.byLayer == s.byLayer && t.log == s.log && t.sequence == s.sequence
    ensures var r := StopEach(t, SortedActive(s), now, reason, None, mark);
            && StopFrame(t, r) && r.active == map[] && r.byLayer == map[]
            && LogOk(r.log, r.active, r.sequence) && Handovers(r.log)
            && r.needsNeutral == t.needsNeutral + (s.byLayer.Keys * mark)
  {
    hide LogOk, Handovers, Shape, SortedActive, StopEach, Listed, IdsOf, LayersOf;
    SortedActiveAll(s);
    WalkSets(s.active, s.byLayer, SortedActive(s));
    StopEachEffect(t, SortedActive(s), now, reason, None, mark);
    StopEachHandovers(t, SortedActive(s), now, reason, mark);
    assert s.active - s.active.Keys == map[];
    assert s.byLayer - s.byLayer.Keys == map[];
  }

  lemma EmptyStage(c: Config, generation: nat, connected: bool)
    ensures LeasesOk(c, generation, connected, map[], map[]) && PendingOk(c, generation, map[], [])
  {
  }

  lemma AdvanceKeeps(c: Config, s: State, generation: nat, now: real)
    requires ValidConfig(c) && Inv(c, s) && Recovered(c, s)
    ensures Inv(c, Advance(c, s, generation, now)) && Recovered(c, Advance(c, s, generation, now))
  {
    hide Recovered, ValidConfig, Restore, LogOk, Handovers, PendingOk, SortedActive, StopEach, Shape, OfGeneration, NeutralIdsOk, HeldOk;
    if generation > s.generation {
      var cleared := s.(generation := generation, pending := [], markers := []);
      StopAll(s, cleared, now, GenerationAdvanced, ALL_LAYERS);
      MarkedHeld(s.connected, s.held, s.byLayer, s.needsNeutral, s.byLayer.Keys);
      assert s.byLayer - s.byLayer.Keys == map[];
      EmptyStage(c, generation, s.connected);
      RestoreKeeps(c, StopEach(cleared, SortedActive(s), now, GenerationAdvanced, None, ALL_LAYERS), now);
    }
  }

  lemma AllHeld(connected: bool, byLayer: map<Layer, CueId>)
    ensures HeldOk(connected, ALL_LAYERS, byLayer, ALL_LAYERS)
  {
  }

  lemma ResetKeeps(c: Config, s: State, now: real)
    requires ValidConfig(c) && Inv(c, s)
    ensures Inv(c, Reset(c, s, now)) && Recovered(c, Reset(c, s, now))
  {
    hide Recovered, ValidConfig, Restore, LogOk, Handovers, PendingOk, SortedActive, StopEach, Shape, OfGeneration, NeutralIdsOk, HeldOk;
    var quiet := s.(pending := []);
    StopAll(s, quiet, now, Cancelled, {});
    var stopped := StopEach(quiet, SortedActive(s), now, Cancelled, None, {});
    EmptyStage(c, s.generation, s.connected);
    AllHeld(s.connected, stopped.byLayer);
    RestoreKeeps(c, stopped.(needsNeutral := ALL_LAYERS, held := ALL_LAYERS), now);
  }

  lemma DisconnectKeeps(c: Config, s: State, reason: StopReason, now: real)
    requires Inv(c, s) && Recovered(c, s)
    ensures Inv(c, Disconnect(s, reason, now)) && Recovered(c, Disconnect(s, reason, now))
  {
    hide WaitingIn, LogOk, Handovers, PendingOk, SortedActive, StopEach, Shape, OfGeneration, NeutralIdsOk;
    if s.connected && (reason == Disconnected || reason == AdapterFailure) {
      var quiet := s.(connected := false, pending := [], markers := [], needsNeutral := {}, held := {});
      StopAll(s, quiet, now, reason, {});
      EmptyStage(c, s.generation, false);
    }
  }

  lemma ReconnectKeeps(c: Config, s: State, now: real)
    requires ValidConfig(c) && Inv(c, s) && Recovered(c, s)
    ensures Inv(c, Reconnect(c, s, now)) && Recovered(c, Reconnect(c, s, now))
  {
    hide Recovered, ValidConfig, Restore, LogOk, Handovers, PendingOk, HeldOk, Shape, OfGeneration, NeutralIdsOk;
    if !s.connected {
      AllHeld(true, s.byLayer);
      RestoreKeeps(c, s.(connected := true, needsNeutral := ALL_LAYERS, held := ALL_LAYERS), now);
    }
  }

  /** Every call keeps the invariant and ends with neutral recovery done. */
  lemma ApplyKeeps(c: Config, s: State, call: Call)
    requires ValidConfig(c) && ProperCall(c, call) && Inv(c, s) && Recovered(c, s)
    ensures Inv(c, Apply(c, s, call)) && Recovered(c, Apply(c, s, call))
  {
    hide Inv, Recovered, ValidConfig, Submit, NotifyAudio, Tick, Advance, Cancel, Reset, Disconnect, Reconnect, Reserved;
    match call.op
    case DoSubmit(cue) => SubmitKeeps(c, s, cue, call.now);
    case DoNotify(marker) => NotifyKeeps(c, s, marker, call.now);
    case DoTick => TickKeeps(c, s, call.now);
    case DoAdvance(generation) => AdvanceKeeps(c, s, generation, call.now);
    case DoCancel(id, reason) => CancelKeeps(c, s, id, reason, call.now);
    case DoReset => ResetKeeps(c, s, call.now);
    case DoDisconnect(reason) => DisconnectKeeps(c, s, reason, call.now);
    case DoReconnect => ReconnectKeeps(c, s, call.now);
  }

  lemma {:induction false} ReachableInv(c: Config, generation: nat, calls: seq<Call>)
    requires ValidConfig(c) && ProperCalls(c, calls)
    ensures Inv(c, After(c, generation, calls)) && Recovered(c, After(c, generation, calls))
    decreases |calls|
  {
    hide Inv, ValidConfig, Apply, ProperCall;
    if calls == [] {
      InitInv(c, generation);
    } else {
      hide Recovered;
      ReachableInv(c, generation, calls[..|calls| - 1]);
      ApplyKeeps(c, After(c, generation, calls[..|calls| - 1]), calls[|calls| - 1]);
    }
  }
}
