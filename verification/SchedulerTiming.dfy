/** Rate limits and cooldowns over whole runs of the scheduler, for a clock that never runs backwards. */
module SchedulerTiming {
  import opened Text
  import opened Presentation
  import opened SchedulerSpec

  // ---- What the log says about limited starts ----

  /** A start that counts: neither exempt nor neutral. */
  predicate LimitedStart(event: Event) {
    event.Started? && !event.cue.limitsExempt && !event.cue.neutral
  }

  /** The times of the limited starts on `layers`, in order. */
  function StartTimes(log: seq<Event>, layers: set<Layer>): seq<real> {
    if log == [] then []
    else
      var last := log[|log| - 1];
      var earlier := StartTimes(log[..|log| - 1], layers);
      if LimitedStart(last) && last.cue.layer in layers then earlier + [last.at] else earlier
  }

  lemma StartTimesLast(log: seq<Event>, event: Event, layers: set<Layer>)
    ensures StartTimes(log + [event], layers)
         == if LimitedStart(event) && event.cue.layer in layers
            then StartTimes(log, layers) + [event.at] else StartTimes(log, layers)
  {
    assert (log + [event])[..|log|] == log;
  }

  // ---- Sliding windows ----

  /** Any `max + 1` consecutive starts span at least the window. */
  ghost predicate Spaced(times: seq<real>, limit: RateLimit) {
    forall j :: limit.maxStarts <= j < |times| ==> times[j - limit.maxStarts] + limit.window <= times[j]
  }

  ghost predicate Sorted(times: seq<real>, last: real) {
    && (forall i, j :: 0 <= i < j < |times| ==> times[i] <= times[j])
    && (forall i :: 0 <= i < |times| ==> times[i] <= last)
  }

  /** `starts` is the recent part of `times`: what was dropped has left the window for good. */
  ghost predicate Recent(times: seq<real>, starts: seq<real>, limit: RateLimit, last: real) {
    && |starts| <= |times|
    && starts == times[|times| - |starts|..]
    && (forall i :: 0 <= i < |times| - |starts| ==> times[i] + limit.window <= last)
  }

  ghost predicate RateOk(times: seq<real>, starts: seq<real>, limit: RateLimit, last: real) {
    Sorted(times, last) && Recent(times, starts, limit, last) && Spaced(times, limit)
  }

  lemma RateLater(times: seq<real>, starts: seq<real>, limit: RateLimit, last: real, now: real)
    requires RateOk(times, starts, limit, last) && last <= now
    ensures RateOk(times, starts, limit, now)
  {
  }

  lemma {:induction false} PruneOk(times: seq<real>, starts: seq<real>, limit: RateLimit, now: real)
    requires RateOk(times, starts, limit, now)
    ensures RateOk(times, Pruned(starts, now - limit.window), limit, now)
    decreases |starts|
  {
    if starts != [] && starts[0] <= now - limit.window {
      var n := |times| - |starts|;
      assert times[n..][0] == times[n] && times[n..][1..] == times[n + 1..];
      PruneOk(times, starts[1..], limit, now);
    }
  }

  /** A start admitted while fewer than `maxStarts` starts are in the window keeps the spacing. */
  lemma AdmitOk(times: seq<real>, starts: seq<real>, limit: RateLimit, now: real)
    requires RateOk(times, starts, limit, now) && |starts| < limit.maxStarts
    ensures RateOk(times + [now], starts + [now], limit, now)
  {
    var n := |times| - |starts|;
    assert (times + [now])[n..] == times[n..] + [now];
  }

  // ---- Counting ----

  /** How many of the first `n` times lie in the half-open window `(lo, hi]`. */
  function CountIn(times: seq<real>, lo: real, hi: real, n: nat): nat
    requires n <= |times|
  {
    if n == 0 then 0 else CountIn(times, lo, hi, n - 1) + (if lo < times[n - 1] <= hi then 1 else 0)
  }

  lemma {:induction false} CountFrom(times: seq<real>, lo: real, hi: real, m: nat, n: nat)
    requires m <= n <= |times| && forall i :: 0 <= i < m ==> times[i] <= lo
    ensures CountIn(times, lo, hi, n) <= n - m
    decreases n
  {
    if n > m {
      CountFrom(times, lo, hi, m, n - 1);
    } else if n > 0 {
      CountFrom(times, lo, hi, m - 1, n - 1);
    }
  }

  /** Spaced starts never crowd a window. */
  lemma {:induction false} SpacedCount(times: seq<real>, limit: RateLimit, last: real, end: real, n: nat)
    requires Sorted(times, last) && Spaced(times, limit) && n <= |times|
    ensures CountIn(times, end - limit.window, end, n) <= limit.maxStarts
    decreases n
  {
    var lo := end - limit.window;
    if n > 0 {
      if lo < times[n - 1] <= end && n > limit.maxStarts {
        var m := n - limit.maxStarts;
        assert times[n - 1 - limit.maxStarts] + limit.window <= times[n - 1];
        assert forall i :: 0 <= i < m ==> times[i] <= times[n - 1 - limit.maxStarts];
        CountFrom(times, lo, end, m, n);
      } else if lo < times[n - 1] <= end {
        CountFrom(times, lo, end, 0, n);
      } else {
        SpacedCount(times, limit, last, end, n - 1);
      }
    }
  }

  // ---- Cooldowns ----

  predicate Keyed(event: Event, key: string) {
    LimitedStart(event) && event.cue.cooldownKey == Some(key)
  }

  predicate Cooled(event: Event, cooldownUntil: map<string, real>, last: real)
    requires event.Started?
  {
    || event.at + event.cue.cooldown <= last
    || (event.cue.cooldownKey.Some? && event.cue.cooldownKey.value in cooldownUntil
        && event.at + event.cue.cooldown <= cooldownUntil[event.cue.cooldownKey.value])
  }

  /** Some start with this key cools down at `at`. */
  predicate CoolsAt(log: seq<Event>, key: string, at: real) {
    exists i | 0 <= i < |log| :: Keyed(log[i], key) && log[i].at + log[i].cue.cooldown == at
  }

  /** Every start that has not cooled down yet is remembered, and every cooldown comes from a start. */
  ghost predicate CoolOk(log: seq<Event>, cooldownUntil: map<string, real>, last: real) {
    && (forall i :: 0 <= i < |log| && LimitedStart(log[i]) && log[i].cue.cooldownKey.Some? ==>
          Cooled(log[i], cooldownUntil, last))
    && (forall key <- cooldownUntil :: CoolsAt(log, key, cooldownUntil[key]))
  }

  lemma CoolsAtLonger(log: seq<Event>, event: Event)
    ensures forall key, at :: CoolsAt(log, key, at) ==> CoolsAt(log + [event], key, at)
    ensures LimitedStart(event) && event.cue.cooldownKey.Some? ==>
              CoolsAt(log + [event], event.cue.cooldownKey.value, event.at + event.cue.cooldown)
  {
    hide LimitedStart;
    var more := log + [event];
    assert more[|log|] == event;
    forall key, at | CoolsAt(log, key, at) ensures CoolsAt(more, key, at) {
      var i :| 0 <= i < |log| && Keyed(log[i], key) && log[i].at + log[i].cue.cooldown == at;
      assert more[i] == log[i];
    }
  }

  /** Limited starts with the same cooldown key keep their distance. */
  ghost predicate Apart(log: seq<Event>) {
    forall key, i, j :: 0 <= i < j < |log| && Keyed(log[i], key) && Keyed(log[j], key) ==>
      log[i].at + log[i].cue.cooldown <= log[j].at
  }

  lemma CoolQuiet(log: seq<Event>, event: Event, cooldownUntil: map<string, real>, last: real)
    requires CoolOk(log, cooldownUntil, last) && Apart(log) && !LimitedStart(event)
    ensures CoolOk(log + [event], cooldownUntil, last) && Apart(log + [event])
  {
    hide LimitedStart, Cooled, CoolsAt;
    CoolsAtLonger(log, event);
  }

  lemma CoolStart(log: seq<Event>, sequence: nat, cue: Cue, cooldownUntil: map<string, real>, now: real)
    requires CoolOk(log, cooldownUntil, now) && Apart(log) && Limited(cue)
    requires cue.cooldownKey.Some? && cue.cooldownKey.value in cooldownUntil ==> cooldownUntil[cue.cooldownKey.value] <= now
    ensures var until := if cue.cooldownKey.Some? && cue.cooldown > 0.0
                         then cooldownUntil[cue.cooldownKey.value := now + cue.cooldown] else cooldownUntil;
            CoolOk(log + [Started(sequence, cue, now)], until, now)
    ensures Apart(log + [Started(sequence, cue, now)])
  {
    hide CoolsAt;
    CoolsAtLonger(log, Started(sequence, cue, now));
  }

  lemma CoolExpire(log: seq<Event>, cooldownUntil: map<string, real>, now: real)
    requires CoolOk(log, cooldownUntil, now)
    ensures CoolOk(log, CoolAt(cooldownUntil, now), now)
  {
    hide LimitedStart, CoolsAt;
  }

  lemma CoolLater(log: seq<Event>, cooldownUntil: map<string, real>, last: real, now: real)
    requires CoolOk(log, cooldownUntil, last) && last <= now
    ensures CoolOk(log, cooldownUntil, now)
  {
    hide LimitedStart, CoolsAt;
  }

  // ---- The invariant ----

  ghost predicate GlobalOk(c: Config, log: seq<Event>, starts: seq<real>, last: real) {
    c.globalLimit.Some? ==> RateOk(StartTimes(log, ALL_LAYERS), starts, c.globalLimit.value, last)
  }

  ghost predicate LayersOk(c: Config, log: seq<Event>, layerStarts: map<Layer, seq<real>>, last: real) {
    forall l <- c.layerLimits :: RateOk(StartTimes(log, {l}), StartsOf(layerStarts, l), c.layerLimits[l], last)
  }

  ghost predicate Timing(c: Config, s: State, last: real) {
    && GlobalOk(c, s.log, s.globalStarts, last)
    && LayersOk(c, s.log, s.layerStarts, last)
    && CoolOk(s.log, s.cooldownUntil, last)
    && Apart(s.log)
  }

  lemma InitTiming(c: Config, generation: nat, last: real)
    ensures Timing(c, Init(generation), last)
  {
    assert StartTimes([], ALL_LAYERS) == [];
    forall l ensures StartTimes([], {l}) == [] { }
  }

  lemma TimingLater(c: Config, s: State, last: real, now: real)
    requires Timing(c, s, last) && last <= now
    ensures Timing(c, s, now)
  {
    hide RateOk, StartTimes, CoolOk, Apart;
    CoolLater(s.log, s.cooldownUntil, last, now);
    if c.globalLimit.Some? {
      RateLater(StartTimes(s.log, ALL_LAYERS), s.globalStarts, c.globalLimit.value, last, now);
    }
    forall l | l in c.layerLimits
      ensures RateOk(StartTimes(s.log, {l}), StartsOf(s.layerStarts, l), c.layerLimits[l], now)
    {
      RateLater(StartTimes(s.log, {l}), StartsOf(s.layerStarts, l), c.layerLimits[l], last, now);
    }
  }

  /** The fields that limits are kept in. */
  ghost predicate SameLimits(s: State, r: State) {
    r.globalStarts == s.globalStarts && r.layerStarts == s.layerStarts && r.cooldownUntil == s.cooldownUntil
  }

  /** Events that are not limited starts do not matter. */
  lemma QuietTiming(c: Config, s: State, r: State, event: Event, last: real)
    requires Timing(c, s, last) && SameLimits(s, r) && r.log == s.log + [event] && !LimitedStart(event)
    ensures Timing(c, r, last)
  {
    hide RateOk, StartTimes, CoolOk, Apart, LimitedStart;
    CoolQuiet(s.log, event, s.cooldownUntil, last);
    StartTimesLast(s.log, event, ALL_LAYERS);
    forall l | l in c.layerLimits
      ensures RateOk(StartTimes(r.log, {l}), StartsOf(r.layerStarts, l), c.layerLimits[l], last)
    {
      StartTimesLast(s.log, event, {l});
    }
  }

  lemma StopOneFrame(s: State, lease: Lease, now: real, reason: StopReason, heir: Option<CueId>, mark: set<Layer>)
    ensures var r := StopOne(s, lease, now, reason, heir, mark);
            SameLimits(s, r) && r.log == s.log + [Stopped(s.sequence + 1, lease.cue, now, reason, heir)]
  {
  }

  lemma {:induction false} StopEachTiming(c: Config, s: State, leases: seq<Lease>, now: real, reason: StopReason, heir: Option<CueId>, mark: set<Layer>, last: real)
    requires Timing(c, s, last)
    ensures var r := StopEach(s, leases, now, reason, heir, mark);
            Timing(c, r, last) && SameLimits(s, r)
    decreases |leases|
  {
    hide Timing, StopOne;
    if leases != [] {
      StopOneFrame(s, leases[0], now, reason, heir, mark);
      var next := StopOne(s, leases[0], now, reason, heir, mark);
      QuietTiming(c, s, next, Stopped(s.sequence + 1, leases[0].cue, now, reason, heir), last);
      StopEachTiming(c, next, leases[1..], now, reason, heir, mark, last);
    }
  }

  lemma ExpireTiming(c: Config, s: State, now: real)
    requires Timing(c, s, now)
    ensures Timing(c, Expire(s, now), now)
  {
    hide GlobalOk, LayersOk, CoolOk, Apart, StopEach, ExpiredIn, SortedActive, TimelyIn, CoolAt;
    var leases := ExpiredIn(SortedActive(s), now);
    StopEachTiming(c, s, leases, now, LeaseExpired, None, ALL_LAYERS, now);
    var r := StopEach(s, leases, now, LeaseExpired, None, ALL_LAYERS);
    CoolExpire(r.log, s.cooldownUntil, now);
  }

  /** Checking the limits prunes, and on success leaves room for one more start. */
  lemma LimitsTiming(c: Config, s: State, layer: Layer, now: real)
    requires Timing(c, s, now)
    ensures var checked := WithinLimits(c, s, layer, now);
            && Timing(c, checked.state, now)
            && (checked.ok ==> Room(c, checked.state, layer))
  {
    hide RateOk, StartTimes, CoolOk, Apart, Pruned;
    if c.globalLimit.Some? {
      PruneOk(StartTimes(s.log, ALL_LAYERS), s.globalStarts, c.globalLimit.value, now);
    }
    if layer in c.layerLimits {
      PruneOk(StartTimes(s.log, {layer}), StartsOf(s.layerStarts, layer), c.layerLimits[layer], now);
    }
  }

  ghost predicate Room(c: Config, s: State, layer: Layer) {
    && (c.globalLimit.Some? ==> |s.globalStarts| < c.globalLimit.value.maxStarts)
    && (layer in c.layerLimits ==> |StartsOf(s.layerStarts, layer)| < c.layerLimits[layer].maxStarts)
  }

  lemma LayerCharge(c: Config, log: seq<Event>, n: nat, cue: Cue, layerStarts: map<Layer, seq<real>>, now: real)
    requires LayersOk(c, log, layerStarts, now) && Limited(cue)
    requires cue.layer in c.layerLimits ==> |StartsOf(layerStarts, cue.layer)| < c.layerLimits[cue.layer].maxStarts
    ensures LayersOk(c, log + [Started(n, cue, now)],
                     if cue.layer in c.layerLimits
                     then layerStarts[cue.layer := StartsOf(layerStarts, cue.layer) + [now]] else layerStarts, now)
  {
    hide RateOk, StartTimes;
    forall l | l in c.layerLimits
      ensures RateOk(StartTimes(log + [Started(n, cue, now)], {l}),
                     if l == cue.layer then StartsOf(layerStarts, l) + [now] else StartsOf(layerStarts, l),
                     c.layerLimits[l], now)
    {
      StartTimesLast(log, Started(n, cue, now), {l});
      if l == cue.layer {
        AdmitOk(StartTimes(log, {l}), StartsOf(layerStarts, l), c.layerLimits[l], now);
      }
    }
  }

  /** A limited cue that starts with room to spare keeps every limit. */
  lemma ChargeTiming(c: Config, s: State, cue: Cue, now: real, n: nat, r: State)
    requires Timing(c, s, now) && Limited(cue) && Room(c, s, cue.layer) && !CoolingDown(s, cue, now)
    requires SameLimits(s, r) && r.log == s.log + [Started(n, cue, now)]
    ensures Timing(c, Charged(c, r, cue, now), now)
  {
    hide RateOk, StartTimes, CoolOk, Apart, LayersOk;
    CoolStart(s.log, n, cue, s.cooldownUntil, now);
    StartTimesLast(s.log, Started(n, cue, now), ALL_LAYERS);
    LayerOf(cue.layer);
    if c.globalLimit.Some? {
      AdmitOk(StartTimes(s.log, ALL_LAYERS), s.globalStarts, c.globalLimit.value, now);
    }
    LayerCharge(c, s.log, n, cue, s.layerStarts, now);
  }

  lemma LayerOf(l: Layer)
    ensures l in ALL_LAYERS
  {
    match l
    case Affect =>
    case Gaze =>
    case Gesture =>
    case Posture =>
  }

  lemma BeginTiming(c: Config, s: State, cue: Cue, now: real)
    requires Timing(c, s, now)
    requires Limited(cue) ==> Room(c, s, cue.layer) && !CoolingDown(s, cue, now)
    ensures Timing(c, Begin(c, s, cue, now), now)
  {
    hide Timing, StopEach, ConflictsOf, Charged, Limited, Room;
    var leases, mark := ConflictsOf(s, cue), ALL_LAYERS - {cue.layer};
    StopEachTiming(c, s, leases, now, Preempted, Some(cue.id), mark, now);
    var cleared := StopEach(s, leases, now, Preempted, Some(cue.id), mark);
    var started := StartOne(cleared, Lease(cue, now, ExpiryOf(cue, now)), now);
    var event := Started(cleared.sequence + 1, cue, now);
    assert started.log == cleared.log + [event];
    if Limited(cue) {
      RoomFrame(c, s, cleared, cue.layer);
      ChargeTiming(c, cleared, cue, now, cleared.sequence + 1, started);
    } else {
      NotLimitedStart(event);
      QuietTiming(c, cleared, started, event, now);
    }
  }

  lemma RoomFrame(c: Config, s: State, r: State, layer: Layer)
    requires Room(c, s, layer) && SameLimits(s, r)
    ensures Room(c, r, layer)
  {
  }

  lemma NotLimitedStart(event: Event)
    requires event.Started? && !Limited(event.cue)
    ensures !LimitedStart(event)
  {
  }

  lemma AttemptTiming(c: Config, s: State, cue: Cue, now: real)
    requires Timing(c, s, now)
    ensures Timing(c, AttemptStart(c, s, cue, now).state, now)
  {
    hide Timing, Begin, WithinLimits, ConflictsOf, Blocked, Room;
    if !Limited(cue) {
      BeginTiming(c, s, cue, now);
    } else if !CoolingDown(s, cue, now) {
      var checked := WithinLimits(c, s, cue.layer, now);
      LimitsTiming(c, s, cue.layer, now);
      LimitsCool(c, s, cue.layer, now);
      if checked.ok { BeginTiming(c, checked.state, cue, now); }
    }
  }

  lemma LimitsCool(c: Config, s: State, layer: Layer, now: real)
    ensures WithinLimits(c, s, layer, now).state.cooldownUntil == s.cooldownUntil
  {
    hide Pruned;
  }

  // ---- Operations ----

  lemma RestoreLayerTiming(c: Config, s: State, l: Layer, now: real)
    requires ValidConfig(c) && c.neutralCue.Some? && Timing(c, s, now)
    ensures Timing(c, RestoreLayer(c, s, l, now), now)
  {
    hide GlobalOk, LayersOk, CoolOk, Apart, ConflictsOf;
    var cue := c.neutralCue.value(l, s.generation, now);
    assert NeutralCueOk(c, l, s.generation, cue);
    QuietTiming(c, s, StartOne(s, Lease(cue, now, None), now), Started(s.sequence + 1, cue, now), now);
  }

  lemma {:induction false} RestoreEachTiming(c: Config, s: State, layers: seq<Layer>, now: real)
    requires ValidConfig(c) && c.neutralCue.Some? && Timing(c, s, now)
    ensures Timing(c, RestoreEach(c, s, layers, now), now)
    decreases |layers|
  {
    hide Timing, RestoreLayer, ValidConfig;
    if layers != [] {
      RestoreLayerTiming(c, s, layers[0], now);
      RestoreEachTiming(c, RestoreLayer(c, s, layers[0], now), layers[1..], now);
    }
  }

  lemma RestoreTiming(c: Config, s: State, now: real)
    requires ValidConfig(c) && Timing(c, s, now)
    ensures Timing(c, Restore(c, s, now), now)
  {
    hide Timing, RestoreEach, ValidConfig;
    if s.connected && c.neutralCue.Some? { RestoreEachTiming(c, s, LAYERS, now); }
  }

  lemma TimingFrame(c: Config, s: State, r: State, last: real)
    requires Timing(c, s, last) && SameLimits(s, r) && r.log == s.log
    ensures Timing(c, r, last)
  {
    hide GlobalOk, LayersOk, CoolOk, Apart;
  }

  lemma {:induction false} StartEachTiming(c: Config, b: Batch, due: seq<Pending>, now: real)
    requires Timing(c, b.state, now)
    ensures Timing(c, StartEach(c, b, due, now).state, now)
    decreases |due|
  {
    hide Timing, AttemptStart, HasPending, WithoutPending;
    if due != [] {
      if HasPending(b.state.pending, due[0].cue.id) {
        var s := b.state.(pending := WithoutPending(b.state.pending, due[0].cue.id));
        TimingFrame(c, b.state, s, now);
        AttemptTiming(c, s, due[0].cue, now);
      }
      StartEachTiming(c, StartNext(c, b, due[0], now), due[1..], now);
    }
  }

  lemma AdmitTiming(c: Config, s: State, cue: Cue, now: real)
    requires Timing(c, s, now)
    ensures Timing(c, Admit(c, s, cue, now).state, now)
  {
    hide Timing, AttemptStart, HasPending, DueTime;
    if Refusal(s, cue, now).None? {
      var queued := s.(sequence := s.sequence + 1);
      TimingFrame(c, s, queued, now);
      if cue.binding.None? {
        AttemptTiming(c, s, cue, now);
      } else if |s.pending| < c.maxPending {
        var due := DueTime(s, cue);
        if due.Some? && due.value <= now { AttemptTiming(c, queued, cue, now); }
        else { TimingFrame(c, s, Admit(c, s, cue, now).state, now); }
      }
    }
  }

  lemma CancelInTiming(c: Config, s: State, id: CueId, reason: StopReason, now: real)
    requires Timing(c, s, now)
    ensures Timing(c, CancelIn(s, id, reason, now), now)
  {
    hide Timing, StopOne, HasPending, WithoutPending;
    if HasPending(s.pending, id) {
      TimingFrame(c, s, CancelIn(s, id, reason, now), now);
    } else if id in s.active {
      StopOneFrame(s, s.active[id], now, reason, None, ALL_LAYERS);
      QuietTiming(c, s, CancelIn(s, id, reason, now), Stopped(s.sequence + 1, s.active[id].cue, now, reason, None), now);
    }
  }

  /** Every call keeps the limits, as long as the clock has not gone back. */
  lemma ApplyTiming(c: Config, s: State, call: Call)
    requires ValidConfig(c) && Timing(c, s, call.now)
    ensures Timing(c, Apply(c, s, call), call.now)
  {
    hide Timing, ValidConfig, Expire, Admit, Restore, StartEach, SortDue, DueIn, StopEach, SortedActive, CancelIn, BoundAll, WithoutMarker;
    var now := call.now;
    ExpireTiming(c, s, now);
    var e := Expire(s, now);
    match call.op
    case DoSubmit(cue) =>
      AdmitTiming(c, e, cue, now);
      RestoreTiming(c, Admit(c, e, cue, now).state, now);
    case DoNotify(marker) =>
      TimingFrame(c, e, Noted(c, e, marker), now);
      StartDueTiming(c, Noted(c, e, marker), now);
    case DoTick => StartDueTiming(c, e, now);
    case DoAdvance(generation) =>
      var cleared := s.(generation := generation, pending := [], markers := []);
      TimingFrame(c, s, cleared, now);
      StopEachTiming(c, cleared, SortedActive(s), now, GenerationAdvanced, None, ALL_LAYERS, now);
      RestoreTiming(c, StopEach(cleared, SortedActive(s), now, GenerationAdvanced, None, ALL_LAYERS), now);
    case DoCancel(id, reason) =>
      CancelInTiming(c, e, id, reason, now);
      RestoreTiming(c, CancelIn(e, id, reason, now), now);
    case DoReset => ResetTiming(c, s, now);
    case DoDisconnect(reason) =>
      var quiet := s.(connected := false, pending := [], markers := [], needsNeutral := {}, held := {});
      TimingFrame(c, s, quiet, now);
      StopEachTiming(c, quiet, SortedActive(s), now, reason, None, {}, now);
    case DoReconnect =>
      var back := s.(connected := true, needsNeutral := ALL_LAYERS, held := ALL_LAYERS);
      TimingFrame(c, s, back, now);
      RestoreTiming(c, back, now);
  }

  lemma StartDueTiming(c: Config, s: State, now: real)
    requires ValidConfig(c) && Timing(c, s, now)
    ensures Timing(c, Restore(c, StartDue(c, s, now).state, now), now)
  {
    hide Timing, ValidConfig, Restore, StartEach, SortDue, DueIn;
    StartEachTiming(c, Batch(s, []), SortDue(DueIn(s.pending, now)), now);
    RestoreTiming(c, StartDue(c, s, now).state, now);
  }

  lemma ResetTiming(c: Config, s: State, now: real)
    requires ValidConfig(c) && Timing(c, s, now)
    ensures Timing(c, Reset(c, s, now), now)
  {
    hide Timing, ValidConfig, Restore, StopEach, SortedActive;
    var quiet := s.(pending := []);
    TimingFrame(c, s, quiet, now);
    StopEachTiming(c, quiet, SortedActive(s), now, Cancelled, None, {}, now);
    var stopped := StopEach(quiet, SortedActive(s), now, Cancelled, None, {});
    TimingFrame(c, stopped, stopped.(needsNeutral := ALL_LAYERS, held := ALL_LAYERS), now);
    RestoreTiming(c, stopped.(needsNeutral := ALL_LAYERS, held := ALL_LAYERS), now);
  }

  // ---- Whole runs ----

  ghost predicate ClockNeverGoesBack(calls: seq<Call>) {
    forall i, j :: 0 <= i < j < |calls| ==> calls[i].now <= calls[j].now
  }

  lemma {:induction false} RunTiming(c: Config, generation: nat, calls: seq<Call>, last: real)
    requires ValidConfig(c) && ClockNeverGoesBack(calls)
    requires forall i :: 0 <= i < |calls| ==> calls[i].now <= last
    ensures Timing(c, After(c, generation, calls), last)
    decreases |calls|
  {
    hide Timing, ValidConfig, Apply;
    if calls == [] {
      InitTiming(c, generation, last);
    } else {
      var n := |calls| - 1;
      RunTiming(c, generation, calls[..n], calls[n].now);
      ApplyTiming(c, After(c, generation, calls[..n]), calls[n]);
      TimingLater(c, After(c, generation, calls), calls[n].now, last);
    }
  }

  /** Rate limits: whatever is called, no window `(end - w, end]` of the whole run holds more than
      `maxStarts` limited starts, over all layers and on each limited layer. */
  lemma RateLimitsHold(c: Config, generation: nat, calls: seq<Call>, end: real)
    requires ValidConfig(c) && ClockNeverGoesBack(calls)
    ensures var log := After(c, generation, calls).log;
            && (c.globalLimit.Some? ==>
                  var times := StartTimes(log, ALL_LAYERS);
                  CountIn(times, end - c.globalLimit.value.window, end, |times|) <= c.globalLimit.value.maxStarts)
            && (forall l <- c.layerLimits ::
                  var times := StartTimes(log, {l});
                  CountIn(times, end - c.layerLimits[l].window, end, |times|) <= c.layerLimits[l].maxStarts)
  {
    hide After, StartTimes, CountIn, CoolOk, Apart, ValidConfig, Sorted, Spaced;
    var last := if calls == [] then 0.0 else calls[|calls| - 1].now;
    RunTiming(c, generation, calls, last);
    var log := After(c, generation, calls).log;
    if c.globalLimit.Some? {
      var times := StartTimes(log, ALL_LAYERS);
      SpacedCount(times, c.globalLimit.value, last, end, |times|);
    }
    forall l | l in c.layerLimits
      ensures var times := StartTimes(log, {l});
              CountIn(times, end - c.layerLimits[l].window, end, |times|) <= c.layerLimits[l].maxStarts
    {
      var times := StartTimes(log, {l});
      SpacedCount(times, c.layerLimits[l], last, end, |times|);
    }
  }

  /** Cooldowns: of two limited starts with the same key, the later comes at least the earlier one's
      cooldown after it, across generations, resets and reconnects. */
  lemma CooldownsHold(c: Config, generation: nat, calls: seq<Call>, key: string, i: nat, j: nat)
    requires ValidConfig(c) && ClockNeverGoesBack(calls)
    requires i < j < |After(c, generation, calls).log|
    requires Keyed(After(c, generation, calls).log[i], key) && Keyed(After(c, generation, calls).log[j], key)
    ensures var log := After(c, generation, calls).log;
            log[i].at + log[i].cue.cooldown <= log[j].at
  {
    hide After, StartTimes, CoolOk, ValidConfig, GlobalOk, LayersOk;
    RunTiming(c, generation, calls, if calls == [] then 0.0 else calls[|calls| - 1].now);
  }
}
