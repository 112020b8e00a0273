/** The presentation scheduler as an object: synchronous, owned by one session, told the time by its
    caller, and returning every event it causes. */
module Scheduler {
  import opened Text
  import opened Presentation
  import Spec = SchedulerSpec
  import opened SchedulerInvariant
  import opened SchedulerSteps

  class PresentationScheduler {
    const config: Config
    var generation: nat
    var connected: bool
    var active: map<CueId, Lease>
    var byLayer: map<Layer, CueId>
    var pending: seq<Pending>
    var markers: seq<Marker>
    var cooldownUntil: map<string, real>
    var globalStarts: seq<real>
    var layerStarts: map<Layer, seq<real>>
    var needsNeutral: set<Layer>
    var sequence: nat
    ghost var log: seq<Event>
    ghost var held: set<Layer>

    ghost function State(): Spec.State
      reads this
    {
      Spec.State(generation, connected, active, byLayer, pending, markers, cooldownUntil, globalStarts,
                 layerStarts, needsNeutral, sequence, log, held)
    }

    ghost predicate Valid()
      reads this
    {
      ValidConfig(config) && Inv(config, State()) && Recovered(config, State())
    }

    constructor (config: Config, generation: nat)
      requires ValidConfig(config)
      ensures Valid() && this.config == config && State() == Spec.Init(generation)
    {
      this.config, this.generation, connected := config, generation, true;
      active, byLayer, pending, markers := map[], map[], [], [];
      cooldownUntil, globalStarts, layerStarts := map[], [], map[];
      needsNeutral, sequence, log, held := {}, 0, [], {};
      new;
      InitInv(config, generation);
    }

    // ---- Helpers ----

    method RemoveActive(id: CueId)
      modifies `active, `byLayer
      ensures State() == Spec.Removed(old(State()), id)
    {
      if id in active {
        var layer := active[id].cue.layer;
        active := active - {id};
        if layer in byLayer && byLayer[layer] == id { byLayer := byLayer - {layer}; }
      }
    }

    method StopLease(lease: Lease, now: real, reason: StopReason, heir: Option<CueId>, mark: set<Layer>) returns (event: Event)
      modifies `active, `byLayer, `needsNeutral, `sequence, `log
      ensures State() == Spec.StopOne(old(State()), lease, now, reason, heir, mark)
      ensures log == old(log) + [event]
    {
      RemoveActive(lease.cue.id);
      if lease.cue.layer in mark { needsNeutral := needsNeutral + {lease.cue.layer}; }
      sequence := sequence + 1;
      event := Stopped(sequence, lease.cue, now, reason, heir);
      log := log + [event];
    }

    method StopLeases(leases: seq<Lease>, now: real, reason: StopReason, heir: Option<CueId>, mark: set<Layer>)
      returns (events: seq<Event>)
      modifies `active, `byLayer, `needsNeutral, `sequence, `log
      ensures State() == Spec.StopEach(old(State()), leases, now, reason, heir, mark)
      ensures log == old(log) + events
    {
      hide Spec.StopOne;
      events := [];
      var i := 0;
      while i < |leases|
        invariant 0 <= i <= |leases|
        invariant log == old(log) + events
        invariant Spec.StopEach(State(), leases[i..], now, reason, heir, mark)
               == Spec.StopEach(old(State()), leases, now, reason, heir, mark)
      {
        assert leases[i..][1..] == leases[i + 1..];
        var event := StopLease(leases[i], now, reason, heir, mark);
        events := events + [event];
        i := i + 1;
      }
    }

    method StartLease(lease: Lease, now: real) returns (event: Event)
      modifies `active, `byLayer, `needsNeutral, `sequence, `log, `held
      ensures State() == Spec.StartOne(old(State()), lease, now)
      ensures log == old(log) + [event]
    {
      var cue := lease.cue;
      active := active[cue.id := lease];
      byLayer := byLayer[cue.layer := cue.id];
      needsNeutral := needsNeutral - {cue.layer};
      held := held + {cue.layer};
      sequence := sequence + 1;
      event := Started(sequence, cue, now);
      log := log + [event];
    }

    static method PruneWindow(starts: seq<real>, cutoff: real) returns (recent: seq<real>)
      ensures recent == Spec.Pruned(starts, cutoff)
    {
      recent := starts;
      while recent != [] && recent[0] <= cutoff
        invariant Spec.Pruned(recent, cutoff) == Spec.Pruned(starts, cutoff)
        decreases |recent|
      {
        recent := recent[1..];
      }
    }

    method WithinRateLimits(layer: Layer, now: real) returns (ok: bool)
      modifies `globalStarts, `layerStarts
      ensures var checked := Spec.WithinLimits(config, old(State()), layer, now);
              State() == checked.state && ok == checked.ok
    {
      hide Spec.Pruned;
      if config.globalLimit.Some? {
        var limit := config.globalLimit.value;
        globalStarts := PruneWindow(globalStarts, now - limit.window);
        if |globalStarts| >= limit.maxStarts { return false; }
      }
      if layer in config.layerLimits {
        var limit := config.layerLimits[layer];
        var starts := PruneWindow(Spec.StartsOf(layerStarts, layer), now - limit.window);
        layerStarts := layerStarts[layer := starts];
        return |starts| < limit.maxStarts;
      }
      return true;
    }

    method RecordStart(cue: Cue, now: real)
      modifies `cooldownUntil, `globalStarts, `layerStarts
      ensures State() == Spec.Charged(config, old(State()), cue, now)
    {
      if cue.cooldownKey.Some? && cue.cooldown > 0.0 {
        cooldownUntil := cooldownUntil[cue.cooldownKey.value := now + cue.cooldown];
      }
      if config.globalLimit.Some? { globalStarts := globalStarts + [now]; }
      if cue.layer in config.layerLimits {
        layerStarts := layerStarts[cue.layer := Spec.StartsOf(layerStarts, cue.layer) + [now]];
      }
    }

    method Begin(cue: Cue, now: real) returns (events: seq<Event>)
      modifies this
      ensures State() == Spec.Begin(config, old(State()), cue, now)
      ensures log == old(log) + events
    {
      hide Spec.StopEach, Spec.SortLeases, Spec.Conflicting, Spec.LeasesIn, Spec.Charged;
      var conflicts := Spec.SortLeases(Spec.Conflicting(Spec.LeasesIn(active, byLayer, LAYERS), cue));
      events := StopLeases(conflicts, now, Preempted, Some(cue.id), ALL_LAYERS - {cue.layer});
      var event := StartLease(Lease(cue, now, Spec.ExpiryOf(cue, now)), now);
      events := events + [event];
      if Limited(cue) { RecordStart(cue, now); }
    }

    method AttemptStart(cue: Cue, now: real) returns (status: Status, events: seq<Event>)
      modifies this
      ensures var a := Spec.AttemptStart(config, old(State()), cue, now);
              State() == a.state && status == a.status
      ensures log == old(log) + events
    {
      hide Spec.SortLeases, Spec.Conflicting, Spec.LeasesIn, Spec.Begin, Spec.WithinLimits;
      events := [];
      if Spec.TooLate(cue, now) { return RejectedExpired, []; }
      if cue.generation != generation {
        return if cue.generation < generation then RejectedStaleGeneration else RejectedFutureGeneration, [];
      }
      if !connected { return RejectedDisconnected, []; }
      var conflicts := Spec.SortLeases(Spec.Conflicting(Spec.LeasesIn(active, byLayer, LAYERS), cue));
      if Spec.Blocked(conflicts, cue) { return RejectedPriority, []; }
      if Limited(cue) {
        if cue.cooldownKey.Some? && cue.cooldownKey.value in cooldownUntil && now < cooldownUntil[cue.cooldownKey.value] {
          return RejectedCooldown, [];
        }
        var ok := WithinRateLimits(cue.layer, now);
        LimitsFrame(config, old(State()), cue.layer, now);
        if !ok { return RejectedRateLimit, []; }
      }
      events := Begin(cue, now);
      status := StatusStarted;
    }

    method Expire(now: real) returns (events: seq<Event>)
      modifies this
      ensures State() == Spec.Expire(old(State()), now)
      ensures log == old(log) + events
    {
      hide Spec.StopEach, Spec.ExpiredIn, Spec.LeasesIn, Spec.TimelyIn;
      StopEachFrame(State(), Spec.ExpiredIn(Spec.LeasesIn(active, byLayer, LAYERS), now), now, LeaseExpired, None, ALL_LAYERS);
      events := StopLeases(Spec.ExpiredIn(Spec.LeasesIn(active, byLayer, LAYERS), now), now, LeaseExpired, None, ALL_LAYERS);
      pending := Spec.TimelyIn(pending, now);
      cooldownUntil := Spec.CoolAt(cooldownUntil, now);
    }

    method RestoreLayer(layer: Layer, now: real) returns (events: seq<Event>)
      requires config.neutralCue.Some?
      modifies this
      ensures State() == Spec.RestoreLayer(config, old(State()), layer, now)
      ensures log == old(log) + events
    {
      hide Spec.SortLeases, Spec.Conflicting, Spec.LeasesIn;
      if layer !in needsNeutral { return []; }
      if layer in byLayer {
        needsNeutral := needsNeutral - {layer};
        return [];
      }
      var cue := config.neutralCue.value(layer, generation, now);
      var conflicts := Spec.SortLeases(Spec.Conflicting(Spec.LeasesIn(active, byLayer, LAYERS), cue));
      if conflicts != [] { return []; }
      var event := StartLease(Lease(cue, now, None), now);
      events := [event];
    }

    method RestoreNeutrals(now: real) returns (events: seq<Event>)
      modifies this
      ensures State() == Spec.Restore(config, old(State()), now)
      ensures log == old(log) + events
    {
      hide Spec.RestoreLayer;
      events := [];
      if !connected || config.neutralCue.None? { return; }
      var i := 0;
      while i < |LAYERS|
        invariant 0 <= i <= |LAYERS|
        invariant log == old(log) + events
        invariant Spec.RestoreEach(config, State(), LAYERS[i..], now) == Spec.RestoreEach(config, old(State()), LAYERS, now)
      {
        assert LAYERS[i..][1..] == LAYERS[i + 1..];
        var more := RestoreLayer(LAYERS[i], now);
        events := events + more;
        i := i + 1;
      }
    }

    method StartDue(now: real) returns (results: seq<Spec.Result>, events: seq<Event>)
      modifies this
      ensures var b := Spec.StartDue(config, old(State()), now);
              State() == b.state && results == b.results
      ensures log == old(log) + events
    {
      hide Spec.AttemptStart, Spec.HasPending, Spec.WithoutPending, Spec.SortDue, Spec.DueIn;
      var due := Spec.SortDue(Spec.DueIn(pending, now));
      results, events := [], [];
      var i := 0;
      while i < |due|
        invariant 0 <= i <= |due|
        invariant log == old(log) + events
        invariant Spec.StartEach(config, Spec.Batch(State(), results), due[i..], now) == Spec.StartDue(config, old(State()), now)
      {
        assert due[i..][1..] == due[i + 1..];
        if Spec.HasPending(pending, due[i].cue.id) {
          pending := Spec.WithoutPending(pending, due[i].cue.id);
          var status, more := AttemptStart(due[i].cue, now);
          results := results + [Spec.Result(due[i].cue, status)];
          events := events + more;
        }
        i := i + 1;
      }
    }

    // ---- Public operations ----

    method Admit(cue: Cue, now: real) returns (status: Status, events: seq<Event>)
      modifies this
      ensures var a := Spec.Admit(config, old(State()), cue, now);
              State() == a.state && status == a.status
      ensures log == old(log) + events
    {
      hide Spec.AttemptStart, Spec.HasPending, Spec.FindMarker;
      if !connected { return RejectedDisconnected, []; }
      if cue.generation < generation { return RejectedStaleGeneration, []; }
      if cue.generation > generation { return RejectedFutureGeneration, []; }
      if Spec.TooLate(cue, now) { return RejectedExpired, []; }
      if cue.id in active || Spec.HasPending(pending, cue.id) { return RejectedDuplicate, []; }
      if cue.binding.Some? {
        var marker := Spec.FindMarker(markers, cue.binding.value.key);
        var due := if marker.None? then None else Some(marker.value.occurredAt + cue.binding.value.offset);
        if |pending| >= config.maxPending { return RejectedQueueFull, []; }
        sequence := sequence + 1;
        if due.None? || due.value > now {
          pending := pending + [Pending(cue, sequence, due)];
          return PendingAudio, [];
        }
      }
      status, events := AttemptStart(cue, now);
    }

    method Submit(cue: Cue, now: real) returns (status: Status, events: seq<Event>)
      requires Valid() && ValidCue(cue) && !Reserved(config, cue.id, cue.generation)
      modifies this
      ensures Valid()
      ensures var a := Spec.Submit(config, old(State()), cue, now);
              State() == a.state && status == a.status
      ensures log == old(log) + events
    {
      hide Inv, Recovered, ValidConfig, Spec.Expire, Spec.Admit, Spec.Restore, Reserved;
      SubmitKeeps(config, State(), cue, now);
      events := Expire(now);
      var more;
      status, more := Admit(cue, now);
      var neutral := RestoreNeutrals(now);
      events := events + more + neutral;
    }

    method Tick(now: real) returns (results: seq<Spec.Result>, events: seq<Event>)
      requires Valid()
      modifies this
      ensures Valid()
      ensures var b := Spec.Tick(config, old(State()), now);
              State() == b.state && results == b.results
      ensures log == old(log) + events
    {
      hide Inv, Recovered, ValidConfig, Spec.Expire, Spec.StartDue, Spec.Restore;
      TickKeeps(config, State(), now);
      events := Expire(now);
      var more;
      results, more := StartDue(now);
      var neutral := RestoreNeutrals(now);
      events := events + more + neutral;
    }

    method NotifyAudio(marker: Marker, now: real) returns (results: seq<Spec.Result>, events: seq<Event>)
      requires Valid()
      modifies this
      ensures Valid()
      ensures var b := Spec.NotifyAudio(config, old(State()), marker, now);
              State() == b.state && results == b.results
      ensures log == old(log) + events
    {
      hide Inv, Recovered, ValidConfig, Spec.Expire, Spec.StartDue, Spec.Restore, Spec.WithoutMarker, Spec.BoundAll;
      NotifyKeeps(config, State(), marker, now);
      if !connected || marker.generation != generation { return [], []; }
      events := Expire(now);
      markers := Spec.WithoutMarker(markers, marker.key) + [marker];
      if |markers| > config.maxMarkers { markers := markers[|markers| - config.maxMarkers..]; }
      pending := Spec.BoundAll(pending, marker);
      var more;
      results, more := StartDue(now);
      var neutral := RestoreNeutrals(now);
      events := events + more + neutral;
    }

    /** `ok` is false where the source raises: a generation that goes backwards. */
    method AdvanceGeneration(next: nat, now: real) returns (ok: bool, events: seq<Event>)
      requires Valid()
      modifies this
      ensures Valid() && ok == (next >= old(generation))
      ensures State() == Spec.Advance(config, old(State()), next, now)
      ensures log == old(log) + events
    {
      hide Inv, Recovered, ValidConfig, Spec.StopEach, Spec.LeasesIn, Spec.Restore;
      AdvanceKeeps(config, State(), next, now);
      if next <= generation { return next == generation, []; }
      ok := true;
      var leases := Spec.LeasesIn(active, byLayer, LAYERS);
      generation, pending, markers := next, [], [];
      events := StopLeases(leases, now, GenerationAdvanced, None, ALL_LAYERS);
      var neutral := RestoreNeutrals(now);
      events := events + neutral;
    }

    method Cancel(id: CueId, reason: StopReason, now: real) returns (events: seq<Event>)
      requires Valid()
      modifies this
      ensures Valid()
      ensures State() == Spec.Cancel(config, old(State()), id, reason, now)
      ensures log == old(log) + events
    {
      hide Inv, Recovered, ValidConfig, Spec.Expire, Spec.Restore, Spec.HasPending, Spec.WithoutPending, Spec.StopOne;
      CancelKeeps(config, State(), id, reason, now);
      events := Expire(now);
      if Spec.HasPending(pending, id) {
        pending := Spec.WithoutPending(pending, id);
      } else if id in active {
        var event := StopLease(active[id], now, reason, None, ALL_LAYERS);
        events := events + [event];
      }
      var neutral := RestoreNeutrals(now);
      events := events + neutral;
    }

    method ResetToNeutral(now: real) returns (events: seq<Event>)
      requires Valid()
      modifies this
      ensures Valid()
      ensures State() == Spec.Reset(config, old(State()), now)
      ensures log == old(log) + events
    {
      hide Inv, Recovered, ValidConfig, Spec.StopEach, Spec.LeasesIn, Spec.Restore;
      ResetKeeps(config, State(), now);
      var leases := Spec.LeasesIn(active, byLayer, LAYERS);
      pending := [];
      events := StopLeases(leases, now, Cancelled, None, {});
      needsNeutral, held := ALL_LAYERS, ALL_LAYERS;
      var neutral := RestoreNeutrals(now);
      events := events + neutral;
    }

    /** `ok` is false where the source raises: a reason that does not describe the adapter. */
    method Disconnect(reason: StopReason, now: real) returns (ok: bool, events: seq<Event>)
      requires Valid()
      modifies this
      ensures Valid() && ok == (reason == Disconnected || reason == AdapterFailure)
      ensures State() == Spec.Disconnect(old(State()), reason, now)
      ensures log == old(log) + events
    {
      hide Inv, Recovered, ValidConfig, Spec.StopEach, Spec.LeasesIn;
      DisconnectKeeps(config, State(), reason, now);
      if reason != Disconnected && reason != AdapterFailure { return false, []; }
      ok := true;
      if !connected { return true, []; }
      var leases := Spec.LeasesIn(active, byLayer, LAYERS);
      connected, pending, markers, needsNeutral, held := false, [], [], {}, {};
      events := StopLeases(leases, now, reason, None, {});
    }

    method Reconnect(now: real) returns (events: seq<Event>)
      requires Valid()
      modifies this
      ensures Valid()
      ensures State() == Spec.Reconnect(config, old(State()), now)
      ensures log == old(log) + events
    {
      hide Inv, Recovered, ValidConfig, Spec.Restore;
      ReconnectKeeps(config, State(), now);
      if connected { return []; }
      connected, needsNeutral, held := true, ALL_LAYERS, ALL_LAYERS;
      events := RestoreNeutrals(now);
    }

    /** A late acknowledgement counts only for a cue that is on stage now, in this generation. */
    method AcceptsAdapterResult(id: CueId, ofGeneration: nat) returns (accepted: bool)
      requires Valid()
      ensures accepted <==> ofGeneration == generation && id in active
    {
      hide Recovered, ValidConfig, LogOk, Handovers, PendingOk, HeldOk, Shape, NeutralIdsOk;
      accepted := connected && ofGeneration == generation && id in active && active[id].cue.generation == ofGeneration;
    }
  }

  lemma {:induction false} StopEachFrame(s: Spec.State, leases: seq<Lease>, now: real, reason: StopReason, heir: Option<CueId>, mark: set<Layer>)
    ensures StopFrame(s, Spec.StopEach(s, leases, now, reason, heir, mark))
    decreases |leases|
  {
    if leases != [] {
      StopEachFrame(Spec.StopOne(s, leases[0], now, reason, heir, mark), leases[1..], now, reason, heir, mark);
    }
  }
}
