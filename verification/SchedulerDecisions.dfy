/** When a cue starts: exactly when nothing in the visible history of the scheduler speaks against it. */
module SchedulerDecisions {
  import opened Text
  import opened Presentation
  import opened SchedulerSpec
  import opened SchedulerInvariant
  import opened SchedulerSteps
  import opened SchedulerTiming
  import Scheduler

  // ---- Limits, read off the log ----

  /** Some earlier limited start with the cue's key is still cooling down. */
  predicate StillCooling(log: seq<Event>, cue: Cue, now: real) {
    cue.cooldownKey.Some?
    && exists i | 0 <= i < |log| :: Keyed(log[i], cue.cooldownKey.value) && log[i].at + log[i].cue.cooldown > now
  }

  predicate FewIn(log: seq<Event>, layers: set<Layer>, limit: RateLimit, now: real) {
    var times := StartTimes(log, layers);
    CountIn(times, now - limit.window, now, |times|) < limit.maxStarts
  }

  /** One more limited start on `layer` would not crowd the windows that end now. */
  predicate HasRoom(c: Config, log: seq<Event>, layer: Layer, now: real) {
    && (c.globalLimit.Some? ==> FewIn(log, ALL_LAYERS, c.globalLimit.value, now))
    && (layer in c.layerLimits ==> FewIn(log, {layer}, c.layerLimits[layer], now))
  }

  lemma CoolingIsLogged(s: State, cue: Cue, now: real)
    requires CoolOk(s.log, s.cooldownUntil, now)
    ensures CoolingDown(s, cue, now) <==> StillCooling(s.log, cue, now)
  {
    if CoolingDown(s, cue, now) {
      var key := cue.cooldownKey.value;
      assert CoolsAt(s.log, key, s.cooldownUntil[key]);
      var i :| 0 <= i < |s.log| && Keyed(s.log[i], key) && s.log[i].at + s.log[i].cue.cooldown == s.cooldownUntil[key];
    }
    if StillCooling(s.log, cue, now) {
      var i :| 0 <= i < |s.log| && Keyed(s.log[i], cue.cooldownKey.value) && s.log[i].at + s.log[i].cue.cooldown > now;
      assert Cooled(s.log[i], s.cooldownUntil, now);
    }
  }

  lemma {:induction false} CountExactly(times: seq<real>, lo: real, hi: real, m: nat, n: nat)
    requires m <= n <= |times|
    requires forall i :: 0 <= i < m ==> times[i] <= lo
    requires forall i :: m <= i < n ==> lo < times[i] <= hi
    ensures CountIn(times, lo, hi, n) == n - m
    decreases n
  {
    if n > m {
      CountExactly(times, lo, hi, m, n - 1);
    } else if n > 0 {
      CountExactly(times, lo, hi, m - 1, n - 1);
    }
  }

  lemma {:induction false} PrunedHead(starts: seq<real>, cutoff: real)
    ensures Pruned(starts, cutoff) != [] ==> Pruned(starts, cutoff)[0] > cutoff
  {
    if starts != [] && starts[0] <= cutoff {
      PrunedHead(starts[1..], cutoff);
    }
  }

  /** What pruning leaves is what the log shows in the window. */
  lemma PrunedCounts(times: seq<real>, starts: seq<real>, limit: RateLimit, now: real)
    requires RateOk(times, starts, limit, now)
    ensures |Pruned(starts, now - limit.window)| == CountIn(times, now - limit.window, now, |times|)
  {
    hide Pruned, Spaced, CountIn;
    var kept := Pruned(starts, now - limit.window);
    PruneOk(times, starts, limit, now);
    PrunedHead(starts, now - limit.window);
    var m := |times| - |kept|;
    forall i | m <= i < |times| ensures now - limit.window < times[i] <= now {
      assert times[i] == kept[i - m] && times[m] == kept[0];
    }
    CountExactly(times, now - limit.window, now, m, |times|);
  }

  lemma LimitsAreLogged(c: Config, s: State, layer: Layer, now: real)
    requires Timing(c, s, now)
    ensures WithinLimits(c, s, layer, now).ok <==> HasRoom(c, s.log, layer, now)
  {
    hide Pruned, RateOk, CountIn, StartTimes, CoolOk, Apart;
    if c.globalLimit.Some? {
      PrunedCounts(StartTimes(s.log, ALL_LAYERS), s.globalStarts, c.globalLimit.value, now);
    }
    if layer in c.layerLimits {
      PrunedCounts(StartTimes(s.log, {layer}), StartsOf(s.layerStarts, layer), c.layerLimits[layer], now);
    }
  }

  // ---- The decision ----

  /** The two cues cannot be on stage together: they share their layer or a resource. */
  predicate Clash(a: Cue, b: Cue) {
    a.layer == b.layer || exists r <- a.resources :: r in b.resources
  }

  /** No lease in the cue's way outranks it. */
  predicate Unopposed(active: map<CueId, Lease>, cue: Cue) {
    forall id <- active :: Clash(active[id].cue, cue) ==> active[id].cue.priority <= cue.priority
  }

  predicate Timely(cue: Cue, now: real) {
    cue.notAfter.None? || now <= cue.notAfter.value
  }

  /** What has to hold for a cue to start, read off its own fields, the leases on stage and the log. */
  predicate MayStart(c: Config, s: State, cue: Cue, now: real) {
    && Timely(cue, now) && cue.generation == s.generation && s.connected
    && Unopposed(s.active, cue)
    && (!cue.limitsExempt && !cue.neutral ==> !StillCooling(s.log, cue, now) && HasRoom(c, s.log, cue.layer, now))
  }

  lemma ClashIsConflict(a: Cue, b: Cue)
    ensures Clash(a, b) <==> Conflict(a, b)
  {
  }

  lemma BlockedIsOpposed(s: State, cue: Cue)
    requires Shape(s.active, s.byLayer)
    ensures Blocked(ConflictsOf(s, cue), cue) <==> !Unopposed(s.active, cue)
  {
    hide ConflictsOf, Conflict, Shape, Clash;
    ConflictsAll(s, cue);
    var conflicts := ConflictsOf(s, cue);
    if Blocked(conflicts, cue) {
      var i :| 0 <= i < |conflicts| && conflicts[i].cue.priority > cue.priority;
      assert conflicts[i] in conflicts;
      ClashIsConflict(conflicts[i].cue, cue);
    }
    if !Unopposed(s.active, cue) {
      var id :| id in s.active && Clash(s.active[id].cue, cue) && s.active[id].cue.priority > cue.priority;
      ClashIsConflict(s.active[id].cue, cue);
      var i :| 0 <= i < |conflicts| && conflicts[i] == s.active[id];
    }
  }

  /** An attempt succeeds exactly when the cue may start, and then the cue is on stage. */
  lemma AttemptDecides(c: Config, s: State, cue: Cue, now: real)
    requires Shape(s.active, s.byLayer) && Timing(c, s, now)
    ensures AttemptStart(c, s, cue, now).status == StatusStarted <==> MayStart(c, s, cue, now)
    ensures AttemptStart(c, s, cue, now).status == StatusStarted ==>
              && cue.id in AttemptStart(c, s, cue, now).state.active
              && AttemptStart(c, s, cue, now).state.active[cue.id] ==
                   Lease(cue, now, if cue.lease.Some? then Some(now + cue.lease.value) else None)
  {
    hide Shape, Timing, ConflictsOf, Blocked, WithinLimits, StillCooling, HasRoom, Unopposed, CoolingDown, StopEach, Charged;
    BlockedIsOpposed(s, cue);
    LimitsAreLogged(c, s, cue.layer, now);
    assert CoolOk(s.log, s.cooldownUntil, now) by { TimingCools(c, s, now); }
    CoolingIsLogged(s, cue, now);
    ChargedStage(c, s, cue, now);
  }

  lemma TimingCools(c: Config, s: State, now: real)
    requires Timing(c, s, now)
    ensures CoolOk(s.log, s.cooldownUntil, now)
  {
    hide GlobalOk, LayersOk, CoolOk, Apart;
  }

  lemma ChargedStage(c: Config, s: State, cue: Cue, now: real)
    ensures forall t: State :: Charged(c, t, cue, now).active == t.active
  {
  }

  /** The lease has time left, or no limit. */
  predicate Running(lease: Lease, now: real) {
    lease.expiresAt.None? || now < lease.expiresAt.value
  }

  /** Expiry removes exactly the leases whose time is up. */
  lemma ExpireRemoves(c: Config, s: State, now: real)
    requires Inv(c, s)
    ensures forall id :: id in Expire(s, now).active <==> id in s.active && Running(s.active[id], now)
    ensures forall id <- Expire(s, now).active :: Expire(s, now).active[id] == s.active[id]
  {
    hide LogOk, Handovers, PendingOk, HeldOk, SortedActive, ExpiredIn, StopEach, TimelyIn, CoolAt, Expired, OfGeneration, NeutralIdsOk, Shape;
    SortedActiveAll(s);
    var leases := SortedActive(s);
    var expired := ExpiredIn(leases, now);
    ExpiredListed(s.active, leases, now);
    StopEachEffect(s, expired, now, LeaseExpired, None, ALL_LAYERS);
    forall id | id in s.active && Expired(s.active[id], now) ensures id in IdsOf(expired) {
      assert s.active[id] in expired;
      var i :| 0 <= i < |expired| && expired[i] == s.active[id];
      KeyedById(c, s, id);
    }
    forall i | 0 <= i < |expired| ensures Expired(expired[i], now) {
      assert expired[i] in expired;
    }
    forall id | id in s.active ensures Running(s.active[id], now) <==> !Expired(s.active[id], now) {
      RunningIs(s.active[id], now);
    }
  }

  lemma RunningIs(lease: Lease, now: real)
    ensures Running(lease, now) <==> !Expired(lease, now)
  {
  }

  lemma KeyedById(c: Config, s: State, id: CueId)
    requires Inv(c, s) && id in s.active
    ensures s.active[id].cue.id == id
  {
    hide LogOk, Handovers, PendingOk, HeldOk;
  }

  /** In every run, a submitted cue without audio binding starts at once exactly when it is no duplicate and
      may start given the leases that have not expired and the starts logged so far. */
  lemma SubmitDecides(c: Config, generation: nat, calls: seq<Call>, cue: Cue, now: real)
    requires ValidConfig(c) && ProperCalls(c, calls) && ClockNeverGoesBack(calls)
    requires forall i :: 0 <= i < |calls| ==> calls[i].now <= now
    requires cue.binding.None?
    ensures var s := After(c, generation, calls); var e := Expire(s, now);
            && (forall id :: id in e.active <==> id in s.active && Running(s.active[id], now))
            && (Submit(c, s, cue, now).status == StatusStarted <==>
                  cue.id !in e.active && !HasPending(e.pending, cue.id) && MayStart(c, e, cue, now))
  {
    hide After, Inv, Timing, AttemptStart, Expire, Restore, HasPending, MayStart, ValidConfig;
    ReachableInv(c, generation, calls);
    RunTiming(c, generation, calls, now);
    var s := After(c, generation, calls);
    var e := Expire(s, now);
    ExpireRemoves(c, s, now);
    ExpireKeeps(c, s, now);
    ExpireTiming(c, s, now);
    InvShape(c, e);
    AttemptDecides(c, e, cue, now);
    NeedsToBeWelcome(c, e, cue, now);
  }

  lemma InvShape(c: Config, s: State)
    requires Inv(c, s)
    ensures Shape(s.active, s.byLayer)
  {
    hide LogOk, Handovers, PendingOk, HeldOk, Shape;
  }

  lemma NeedsToBeWelcome(c: Config, s: State, cue: Cue, now: real)
    ensures MayStart(c, s, cue, now) ==> s.connected && cue.generation == s.generation && !TooLate(cue, now)
  {
    hide Unopposed, StillCooling, HasRoom;
  }

  // ---- What makes way ----

  /** What stopping a list of leases adds to the log. */
  function Stops(sequence: nat, leases: seq<Lease>, now: real, reason: StopReason, heir: Option<CueId>): seq<Event>
    decreases |leases|
  {
    if leases == [] then []
    else [Stopped(sequence + 1, leases[0].cue, now, reason, heir)] + Stops(sequence + 1, leases[1..], now, reason, heir)
  }

  lemma {:induction false} StopEachLogs(s: State, leases: seq<Lease>, now: real, reason: StopReason, heir: Option<CueId>, mark: set<Layer>)
    ensures StopEach(s, leases, now, reason, heir, mark).log == s.log + Stops(s.sequence, leases, now, reason, heir)
    ensures StopEach(s, leases, now, reason, heir, mark).sequence == s.sequence + |leases|
    decreases |leases|
  {
    hide Removed;
    if leases != [] {
      var next := StopOne(s, leases[0], now, reason, heir, mark);
      StopEachLogs(next, leases[1..], now, reason, heir, mark);
      assert (s.log + [Stopped(s.sequence + 1, leases[0].cue, now, reason, heir)]) + Stops(s.sequence + 1, leases[1..], now, reason, heir)
        == s.log + Stops(s.sequence, leases, now, reason, heir);
    }
  }

  /** `lease` was stopped at `now` in favour of the cue `heir`. */
  predicate MadeWay(log: seq<Event>, from: nat, cue: Cue, now: real, heir: CueId) {
    exists i | from <= i < |log| :: Yields(log[i], cue, now, heir)
  }

  predicate Yields(event: Event, cue: Cue, now: real, heir: CueId) {
    event.Stopped? && event.cue == cue && event.at == now && event.reason == Preempted && event.replacedBy == Some(heir)
  }

  lemma {:induction false} EachYields(sequence: nat, leases: seq<Lease>, now: real, heir: CueId, lease: Lease)
    requires lease in leases
    ensures exists i | 0 <= i < |leases| :: i < |Stops(sequence, leases, now, Preempted, Some(heir))|
              && Yields(Stops(sequence, leases, now, Preempted, Some(heir))[i], lease.cue, now, heir)
    decreases |leases|
  {
    var stops := Stops(sequence, leases, now, Preempted, Some(heir));
    if leases[0] == lease {
      assert Yields(stops[0], lease.cue, now, heir);
    } else {
      EachYields(sequence + 1, leases[1..], now, heir, lease);
      var rest := Stops(sequence + 1, leases[1..], now, Preempted, Some(heir));
      var i :| 0 <= i < |leases[1..]| && i < |rest| && Yields(rest[i], lease.cue, now, heir);
      assert stops[i + 1] == rest[i];
    }
  }

  lemma BeginLogs(c: Config, s: State, cue: Cue, now: real)
    ensures Begin(c, s, cue, now).log ==
      s.log + Stops(s.sequence, ConflictsOf(s, cue), now, Preempted, Some(cue.id))
      + [Started(s.sequence + |ConflictsOf(s, cue)| + 1, cue, now)]
  {
    hide ConflictsOf, StopEach, Stops;
    StopEachLogs(s, ConflictsOf(s, cue), now, Preempted, Some(cue.id), ALL_LAYERS - {cue.layer});
  }

  /** Everything in the way of a cue that begins is stopped for its sake. */
  lemma BeginPreempts(c: Config, s: State, cue: Cue, now: real, id: CueId)
    requires Shape(s.active, s.byLayer) && id in s.active && Conflict(s.active[id].cue, cue)
    ensures MadeWay(Begin(c, s, cue, now).log, |s.log|, s.active[id].cue, now, cue.id)
  {
    hide Shape, Conflict, ConflictsOf, Begin, Stops, Yields;
    ConflictsAll(s, cue);
    var leases := ConflictsOf(s, cue);
    var lease := s.active[id];
    EachYields(s.sequence, leases, now, cue.id, lease);
    var stops := Stops(s.sequence, leases, now, Preempted, Some(cue.id));
    var i :| 0 <= i < |leases| && i < |stops| && Yields(stops[i], lease.cue, now, cue.id);
    BeginLogs(c, s, cue, now);
    assert Begin(c, s, cue, now).log[|s.log| + i] == stops[i];
  }

  lemma AttemptPreempts(c: Config, s: State, cue: Cue, now: real, id: CueId)
    requires Shape(s.active, s.byLayer) && id in s.active && Conflict(s.active[id].cue, cue)
    requires AttemptStart(c, s, cue, now).status == StatusStarted
    ensures MadeWay(AttemptStart(c, s, cue, now).state.log, |s.log|, s.active[id].cue, now, cue.id)
  {
    hide Shape, Conflict, ConflictsOf, Begin, Blocked, WithinLimits, CoolingDown, MadeWay;
    LimitsFrame(c, s, cue.layer, now);
    if Limited(cue) {
      BeginPreempts(c, WithinLimits(c, s, cue.layer, now).state, cue, now, id);
    } else {
      BeginPreempts(c, s, cue, now, id);
    }
  }

  lemma {:induction false} RestoreEachLogs(c: Config, s: State, layers: seq<Layer>, now: real)
    requires c.neutralCue.Some?
    ensures s.log <= RestoreEach(c, s, layers, now).log
    decreases |layers|
  {
    hide ConflictsOf;
    if layers != [] {
      RestoreEachLogs(c, RestoreLayer(c, s, layers[0], now), layers[1..], now);
    }
  }

  lemma LongerWay(a: seq<Event>, b: seq<Event>, from: nat, cue: Cue, now: real, heir: CueId)
    requires a <= b && MadeWay(a, from, cue, now, heir)
    ensures MadeWay(b, from, cue, now, heir)
  {
    hide Yields;
    var i :| from <= i < |a| && Yields(a[i], cue, now, heir);
    assert b[i] == a[i];
  }

  /** In every run, when a submitted cue starts, every unexpired lease that shares its layer or a resource was
      stopped in that call as preempted, replaced by that very cue. */
  lemma SubmitPreempts(c: Config, generation: nat, calls: seq<Call>, cue: Cue, now: real, id: CueId)
    requires ValidConfig(c) && ProperCalls(c, calls) && cue.binding.None?
    requires var s := After(c, generation, calls);
      && Submit(c, s, cue, now).status == StatusStarted
      && id in s.active && Running(s.active[id], now) && Clash(s.active[id].cue, cue)
    ensures var s := After(c, generation, calls);
      MadeWay(Submit(c, s, cue, now).state.log, |Expire(s, now).log|, s.active[id].cue, now, cue.id)
  {
    hide After, Inv, AttemptStart, Expire, RestoreEach, HasPending, ValidConfig, Running, Conflict, Clash, Recovered, MadeWay;
    ClashIsConflict(After(c, generation, calls).active[id].cue, cue);
    ReachableInv(c, generation, calls);
    var s := After(c, generation, calls);
    var e := Expire(s, now);
    ExpireRemoves(c, s, now);
    ExpireKeeps(c, s, now);
    InvShape(c, e);
    AttemptPreempts(c, e, cue, now, id);
    var a := AttemptStart(c, e, cue, now).state;
    var r := Restore(c, a, now);
    if a.connected && c.neutralCue.Some? {
      RestoreEachLogs(c, a, LAYERS, now);
    }
    LongerWay(a.log, r.log, |e.log|, s.active[id].cue, now, cue.id);
  }

  // ---- What is due ----

  /** An attempt never touches the queue of pending cues. */
  lemma AttemptPending(c: Config, s: State, cue: Cue, now: real)
    ensures AttemptStart(c, s, cue, now).state.pending == s.pending
  {
    hide ConflictsOf, Blocked, WithinLimits, CoolingDown, Begin;
    LimitsFrame(c, s, cue.layer, now);
    BeginPending(c, s, cue, now);
    BeginPending(c, WithinLimits(c, s, cue.layer, now).state, cue, now);
  }

  lemma BeginPending(c: Config, s: State, cue: Cue, now: real)
    ensures Begin(c, s, cue, now).pending == s.pending
  {
    hide ConflictsOf, StopEach;
    Scheduler.StopEachFrame(s, ConflictsOf(s, cue), now, Preempted, Some(cue.id), ALL_LAYERS - {cue.layer});
  }

  lemma {:induction false} WithoutGone(pending: seq<Pending>, id: CueId)
    ensures forall x :: x in WithoutPending(pending, id) <==> x in pending && x.cue.id != id
  {
    if pending != [] {
      WithoutGone(pending[1..], id);
    }
  }

  predicate Names(due: seq<Pending>, id: CueId) {
    exists i | 0 <= i < |due| :: due[i].cue.id == id
  }

  lemma StartNextLeaves(c: Config, b: Batch, p: Pending, now: real)
    ensures forall x :: x in StartNext(c, b, p, now).state.pending <==> x in b.state.pending && x.cue.id != p.cue.id
  {
    hide AttemptStart, WithoutPending;
    WithoutGone(b.state.pending, p.cue.id);
    if HasPending(b.state.pending, p.cue.id) {
      AttemptPending(c, b.state.(pending := WithoutPending(b.state.pending, p.cue.id)), p.cue, now);
    } else {
      forall x | x in b.state.pending ensures x.cue.id != p.cue.id {
        var i :| 0 <= i < |b.state.pending| && b.state.pending[i] == x;
      }
    }
  }

  lemma {:induction false} StartEachLeaves(c: Config, b: Batch, due: seq<Pending>, now: real)
    ensures forall x :: x in StartEach(c, b, due, now).state.pending <==> x in b.state.pending && !Names(due, x.cue.id)
    decreases |due|
  {
    hide StartNext;
    if due != [] {
      StartNextLeaves(c, b, due[0], now);
      StartEachLeaves(c, StartNext(c, b, due[0], now), due[1..], now);
      forall id ensures Names(due, id) <==> due[0].cue.id == id || Names(due[1..], id) {
        NamesFirst(due, id);
      }
      hide Names;
    }
  }

  lemma NamesFirst(due: seq<Pending>, id: CueId)
    requires due != []
    ensures Names(due, id) <==> due[0].cue.id == id || Names(due[1..], id)
  {
    if Names(due, id) {
      var i :| 0 <= i < |due| && due[i].cue.id == id;
      if i > 0 {
        assert due[1..][i - 1] == due[i];
      }
    }
    if Names(due[1..], id) {
      var i :| 0 <= i < |due[1..]| && due[1..][i].cue.id == id;
      assert due[i + 1] == due[1..][i];
    }
  }

  /** Starting what is due leaves exactly the pending cues that are not. */
  lemma DueCuesLeave(c: Config, s: State, now: real)
    requires DistinctIds(s.pending)
    ensures forall x :: x in StartDue(c, s, now).state.pending <==> x in s.pending && !Due(x, now)
  {
    hide StartEach, SortDue, DueIn, Due;
    DueSubset(s.pending, now);
    SortDueSame(DueIn(s.pending, now));
    var due := SortDue(DueIn(s.pending, now));
    StartEachLeaves(c, Batch(s, []), due, now);
    forall x | x in s.pending ensures Names(due, x.cue.id) <==> Due(x, now) {
      DueIsNamed(s.pending, due, x, now);
    }
  }

  lemma DueIsNamed(pending: seq<Pending>, due: seq<Pending>, x: Pending, now: real)
    requires DistinctIds(pending) && x in pending
    requires forall p :: p in due <==> p in pending && Due(p, now)
    ensures Names(due, x.cue.id) <==> Due(x, now)
  {
    hide Due;
    if Names(due, x.cue.id) {
      var i :| 0 <= i < |due| && due[i].cue.id == x.cue.id;
      assert due[i] in due;
      assert due[i] == x;
    }
    if Due(x, now) {
      assert x in due;
    }
  }

  lemma InvDistinct(c: Config, s: State)
    requires Inv(c, s)
    ensures DistinctIds(s.pending)
  {
    hide LeasesOk, LogOk, Handovers, HeldOk, PendingCueOk;
    PendingDistinct(c, s.generation, s.active, s.pending);
  }

  lemma ExpirePending(c: Config, s: State, now: real)
    requires Inv(c, s)
    ensures forall x :: x in Expire(s, now).pending <==> x in s.pending && !TooLate(x.cue, now)
  {
    hide StopEach, ExpiredIn, SortedActive, CoolAt, Inv, TimelyIn, TooLate;
    InvDistinct(c, s);
    TimelyFewer(s.pending, now);
  }

  /** In every run a tick leaves waiting exactly the cues that are neither late nor due: whatever was due has
      been attempted. */
  lemma TickAttemptsWhatIsDue(c: Config, generation: nat, calls: seq<Call>, now: real)
    requires ValidConfig(c) && ProperCalls(c, calls)
    ensures var s := After(c, generation, calls);
      forall x :: x in Tick(c, s, now).state.pending <==>
        x in s.pending && Timely(x.cue, now) && (x.dueAt.None? || now < x.dueAt.value)
  {
    hide After, Inv, ValidConfig, Expire, StartDue, Restore, TooLate, Due, Recovered, DistinctIds;
    ReachableInv(c, generation, calls);
    var s := After(c, generation, calls);
    var e := Expire(s, now);
    ExpirePending(c, s, now);
    ExpireKeeps(c, s, now);
    InvDistinct(c, e);
    DueCuesLeave(c, e, now);
    StartDueKeeps(c, e, now);
    RestoreKeeps(c, StartDue(c, e, now).state, now);
    forall x: Pending ensures (Timely(x.cue, now) <==> !TooLate(x.cue, now)) && (Due(x, now) <==> x.dueAt.Some? && x.dueAt.value <= now) {
      TimelyIs(x, now);
    }
  }

  lemma TimelyIs(x: Pending, now: real)
    ensures Timely(x.cue, now) <==> !TooLate(x.cue, now)
    ensures Due(x, now) <==> x.dueAt.Some? && x.dueAt.value <= now
  {
  }
}
