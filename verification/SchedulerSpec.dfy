/** The scheduler's operations as functions of its state. `log` is every event returned so far and
    `held` the layers that have held a cue since the renderer last connected. */
module SchedulerSpec {
  import opened Text
  import opened Presentation

  datatype State = State(
    generation: nat,
    connected: bool,
    active: map<CueId, Lease>,
    byLayer: map<Layer, CueId>,
    pending: seq<Pending>,
    markers: seq<Marker>,
    cooldownUntil: map<string, real>,
    globalStarts: seq<real>,
    layerStarts: map<Layer, seq<real>>,
    needsNeutral: set<Layer>,
    sequence: nat,
    log: seq<Event>,
    held: set<Layer>)

  function Init(generation: nat): State {
    State(generation, true, map[], map[], [], [], map[], [], map[], {}, 0, [], {})
  }

  // ---- Active leases ----

  /** Active leases in layer order; since a layer holds at most one, this is `_sorted_active`. */
  function LeasesIn(active: map<CueId, Lease>, byLayer: map<Layer, CueId>, layers: seq<Layer>): seq<Lease> {
    if layers == [] then []
    else
      var l := layers[0];
      (if l in byLayer && byLayer[l] in active then [active[byLayer[l]]] else [])
      + LeasesIn(active, byLayer, layers[1..])
  }

  function SortedActive(s: State): seq<Lease> {
    LeasesIn(s.active, s.byLayer, LAYERS)
  }

  /** `_remove_active`. */
  function Removed(s: State, id: CueId): State {
    if id !in s.active then s
    else
      var layer := s.active[id].cue.layer;
      s.(active := s.active - {id},
         byLayer := if layer in s.byLayer && s.byLayer[layer] == id then s.byLayer - {layer} else s.byLayer)
  }

  /** Remove one lease, report it, and note its layer for a neutral cue if it is in `mark`. */
  function StopOne(s: State, lease: Lease, now: real, reason: StopReason, heir: Option<CueId>, mark: set<Layer>): State {
    var r := Removed(s, lease.cue.id);
    r.(needsNeutral := if lease.cue.layer in mark then s.needsNeutral + {lease.cue.layer} else s.needsNeutral,
       sequence := s.sequence + 1,
       log := s.log + [Stopped(s.sequence + 1, lease.cue, now, reason, heir)])
  }

  function StopEach(s: State, leases: seq<Lease>, now: real, reason: StopReason, heir: Option<CueId>, mark: set<Layer>): State
    decreases |leases|
  {
    if leases == [] then s
    else StopEach(StopOne(s, leases[0], now, reason, heir, mark), leases[1..], now, reason, heir, mark)
  }

  /** Install a lease and report it. */
  function StartOne(s: State, lease: Lease, now: real): State {
    var cue := lease.cue;
    s.(active := s.active[cue.id := lease],
       byLayer := s.byLayer[cue.layer := cue.id],
       needsNeutral := s.needsNeutral - {cue.layer},
       sequence := s.sequence + 1,
       log := s.log + [Started(s.sequence + 1, cue, now)],
       held := s.held + {cue.layer})
  }

  // ---- Conflicts ----

  /** The order of `_conflicting_leases`: priority descending, then start time, then identifier. */
  predicate Ahead(a: Lease, b: Lease) {
    || a.cue.priority > b.cue.priority
    || (a.cue.priority == b.cue.priority && a.startedAt < b.startedAt)
    || (a.cue.priority == b.cue.priority && a.startedAt == b.startedAt && a.cue.id <= b.cue.id)
  }

  function InsertLease(x: Lease, s: seq<Lease>): seq<Lease> {
    if s == [] || Ahead(x, s[0]) then [x] + s else [s[0]] + InsertLease(x, s[1..])
  }

  function SortLeases(s: seq<Lease>): seq<Lease> {
    if s == [] then [] else InsertLease(s[0], SortLeases(s[1..]))
  }

  function Conflicting(s: seq<Lease>, cue: Cue): seq<Lease> {
    if s == [] then []
    else (if Conflict(s[0].cue, cue) then [s[0]] else []) + Conflicting(s[1..], cue)
  }

  function ConflictsOf(s: State, cue: Cue): seq<Lease> {
    SortLeases(Conflicting(SortedActive(s), cue))
  }

  // ---- Limits ----

  /** `_prune_window`. */
  function Pruned(starts: seq<real>, cutoff: real): seq<real> {
    if starts != [] && starts[0] <= cutoff then Pruned(starts[1..], cutoff) else starts
  }

  function StartsOf(layerStarts: map<Layer, seq<real>>, l: Layer): seq<real> {
    if l in layerStarts then layerStarts[l] else []
  }

  datatype Checked = Checked(state: State, ok: bool)

  /** `_within_rate_limits`, which also drops the starts that left their window. */
  function WithinLimits(c: Config, s: State, layer: Layer, now: real): Checked {
    var s1 := if c.globalLimit.Some? then
                s.(globalStarts := Pruned(s.globalStarts, now - c.globalLimit.value.window)) else s;
    if c.globalLimit.Some? && |s1.globalStarts| >= c.globalLimit.value.maxStarts then Checked(s1, false)
    else if layer in c.layerLimits then
      var limit := c.layerLimits[layer];
      var starts := Pruned(StartsOf(s1.layerStarts, layer), now - limit.window);
      Checked(s1.(layerStarts := s1.layerStarts[layer := starts]), |starts| < limit.maxStarts)
    else Checked(s1, true)
  }

  predicate CoolingDown(s: State, cue: Cue, now: real) {
    cue.cooldownKey.Some? && cue.cooldownKey.value in s.cooldownUntil
    && now < s.cooldownUntil[cue.cooldownKey.value]
  }

  /** Bookkeeping after a limited cue has started. */
  function Charged(c: Config, s: State, cue: Cue, now: real): State {
    s.(cooldownUntil := if cue.cooldownKey.Some? && cue.cooldown > 0.0
                        then s.cooldownUntil[cue.cooldownKey.value := now + cue.cooldown]
                        else s.cooldownUntil,
       globalStarts := if c.globalLimit.Some? then s.globalStarts + [now] else s.globalStarts,
       layerStarts := if cue.layer in c.layerLimits
                      then s.layerStarts[cue.layer := StartsOf(s.layerStarts, cue.layer) + [now]]
                      else s.layerStarts)
  }

  // ---- Starting a cue ----

  datatype Attempt = Attempt(state: State, status: Status)

  function ExpiryOf(cue: Cue, now: real): Option<real> {
    if cue.lease.Some? then Some(now + cue.lease.value) else None
  }

  predicate TooLate(cue: Cue, now: real) {
    cue.notAfter.Some? && now > cue.notAfter.value
  }

  /** Preempt what conflicts with `cue` and start it. */
  function Begin(c: Config, s: State, cue: Cue, now: real): State {
    var cleared := StopEach(s, ConflictsOf(s, cue), now, Preempted, Some(cue.id), ALL_LAYERS - {cue.layer});
    var started := StartOne(cleared, Lease(cue, now, ExpiryOf(cue, now)), now);
    if Limited(cue) then Charged(c, started, cue, now) else started
  }

  predicate Blocked(leases: seq<Lease>, cue: Cue) {
    exists i :: 0 <= i < |leases| && leases[i].cue.priority > cue.priority
  }

  function AttemptStart(c: Config, s: State, cue: Cue, now: real): Attempt {
    if TooLate(cue, now) then Attempt(s, RejectedExpired)
    else if cue.generation < s.generation then Attempt(s, RejectedStaleGeneration)
    else if cue.generation > s.generation then Attempt(s, RejectedFutureGeneration)
    else if !s.connected then Attempt(s, RejectedDisconnected)
    else if Blocked(ConflictsOf(s, cue), cue) then Attempt(s, RejectedPriority)
    else if !Limited(cue) then Attempt(Begin(c, s, cue, now), StatusStarted)
    else if CoolingDown(s, cue, now) then Attempt(s, RejectedCooldown)
    else
      var checked := WithinLimits(c, s, cue.layer, now);
      if !checked.ok then Attempt(checked.state, RejectedRateLimit)
      else Attempt(Begin(c, checked.state, cue, now), StatusStarted)
  }

  // ---- Expiry ----

  predicate Expired(lease: Lease, now: real) {
    lease.expiresAt.Some? && lease.expiresAt.value <= now
  }

  function ExpiredIn(s: seq<Lease>, now: real): seq<Lease> {
    if s == [] then []
    else (if Expired(s[0], now) then [s[0]] else []) + ExpiredIn(s[1..], now)
  }

  function TimelyIn(s: seq<Pending>, now: real): seq<Pending> {
    if s == [] then []
    else (if TooLate(s[0].cue, now) then [] else [s[0]]) + TimelyIn(s[1..], now)
  }

  function CoolAt(cooldownUntil: map<string, real>, now: real): map<string, real> {
    map k | k in cooldownUntil && cooldownUntil[k] > now :: cooldownUntil[k]
  }

  /** `_expire`. */
  function Expire(s: State, now: real): State {
    var stopped := StopEach(s, ExpiredIn(SortedActive(s), now), now, LeaseExpired, None, ALL_LAYERS);
    stopped.(pending := TimelyIn(s.pending, now), cooldownUntil := CoolAt(s.cooldownUntil, now))
  }

  // ---- Neutral recovery ----

  /** Handle one layer of `_restore_neutrals`. */
  function RestoreLayer(c: Config, s: State, layer: Layer, now: real): State
    requires c.neutralCue.Some?
  {
    if layer !in s.needsNeutral then s
    else if layer in s.byLayer then s.(needsNeutral := s.needsNeutral - {layer})
    else
      var cue := c.neutralCue.value(layer, s.generation, now);
      if ConflictsOf(s, cue) != [] then s
      else StartOne(s, Lease(cue, now, None), now)
  }

  function RestoreEach(c: Config, s: State, layers: seq<Layer>, now: real): State
    requires c.neutralCue.Some?
    decreases |layers|
  {
    if layers == [] then s else RestoreEach(c, RestoreLayer(c, s, layers[0], now), layers[1..], now)
  }

  /** `_restore_neutrals`. */
  function Restore(c: Config, s: State, now: real): State {
    if !s.connected || c.neutralCue.None? then s else RestoreEach(c, s, LAYERS, now)
  }

  // ---- Pending cues ----

  predicate HasPending(pending: seq<Pending>, id: CueId) {
    exists i :: 0 <= i < |pending| && pending[i].cue.id == id
  }

  function WithoutPending(pending: seq<Pending>, id: CueId): seq<Pending> {
    if pending == [] then []
    else (if pending[0].cue.id == id then [] else [pending[0]]) + WithoutPending(pending[1..], id)
  }

  predicate Due(p: Pending, now: real) {
    p.dueAt.Some? && p.dueAt.value <= now
  }

  function DueIn(s: seq<Pending>, now: real): seq<Pending> {
    if s == [] then []
    else (if Due(s[0], now) then [s[0]] else []) + DueIn(s[1..], now)
  }

  /** The order of `_start_due`: due time, then priority descending, then sequence number. */
  predicate Sooner(a: Pending, b: Pending) {
    a.dueAt.Some? && b.dueAt.Some? &&
    (|| a.dueAt.value < b.dueAt.value
     || (a.dueAt.value == b.dueAt.value && a.cue.priority > b.cue.priority)
     || (a.dueAt.value == b.dueAt.value && a.cue.priority == b.cue.priority && a.sequence <= b.sequence))
  }

  function InsertDue(x: Pending, s: seq<Pending>): seq<Pending> {
    if s == [] || Sooner(x, s[0]) then [x] + s else [s[0]] + InsertDue(x, s[1..])
  }

  function SortDue(s: seq<Pending>): seq<Pending> {
    if s == [] then [] else InsertDue(s[0], SortDue(s[1..]))
  }

  datatype Result = Result(cue: Cue, status: Status)

  datatype Batch = Batch(state: State, results: seq<Result>)

  function StartEach(c: Config, b: Batch, due: seq<Pending>, now: real): Batch
    decreases |due|
  {
    if due == [] then b else StartEach(c, StartNext(c, b, due[0], now), due[1..], now)
  }

  function StartNext(c: Config, b: Batch, p: Pending, now: real): Batch {
    if !HasPending(b.state.pending, p.cue.id) then b
    else
      var a := AttemptStart(c, b.state.(pending := WithoutPending(b.state.pending, p.cue.id)), p.cue, now);
      Batch(a.state, b.results + [Result(p.cue, a.status)])
  }

  /** `_start_due`. */
  function StartDue(c: Config, s: State, now: real): Batch {
    StartEach(c, Batch(s, []), SortDue(DueIn(s.pending, now)), now)
  }

  // ---- Audio markers ----

  function WithoutMarker(markers: seq<Marker>, key: AudioKey): seq<Marker> {
    if markers == [] then []
    else (if markers[0].key == key then [] else [markers[0]]) + WithoutMarker(markers[1..], key)
  }

  function FindMarker(markers: seq<Marker>, key: AudioKey): (r: Option<Marker>)
    ensures r.Some? ==> r.value in markers && r.value.key == key
    ensures r.None? ==> forall i | 0 <= i < |markers| :: markers[i].key != key
  {
    if markers == [] then None
    else if markers[0].key == key then Some(markers[0])
    else FindMarker(markers[1..], key)
  }

  function Newest(markers: seq<Marker>, limit: nat): seq<Marker> {
    if |markers| > limit then markers[|markers| - limit..] else markers
  }

  function Bound(p: Pending, marker: Marker): Pending {
    if p.cue.binding.Some? && p.cue.binding.value.key == marker.key
    then p.(dueAt := Some(marker.occurredAt + p.cue.binding.value.offset)) else p
  }

  function BoundAll(s: seq<Pending>, marker: Marker): seq<Pending> {
    if s == [] then [] else [Bound(s[0], marker)] + BoundAll(s[1..], marker)
  }

  // ---- Public operations ----

  function Refusal(s: State, cue: Cue, now: real): Option<Status> {
    if !s.connected then Some(RejectedDisconnected)
    else if cue.generation < s.generation then Some(RejectedStaleGeneration)
    else if cue.generation > s.generation then Some(RejectedFutureGeneration)
    else if TooLate(cue, now) then Some(RejectedExpired)
    else if cue.id in s.active || HasPending(s.pending, cue.id) then Some(RejectedDuplicate)
    else None
  }

  function DueTime(s: State, cue: Cue): Option<real>
    requires cue.binding.Some?
  {
    match FindMarker(s.markers, cue.binding.value.key)
    case None => None
    case Some(m) => Some(m.occurredAt + cue.binding.value.offset)
  }

  /** `submit` between expiry and neutral recovery. */
  function Admit(c: Config, s: State, cue: Cue, now: real): Attempt {
    match Refusal(s, cue, now)
    case Some(status) => Attempt(s, status)
    case None =>
      if cue.binding.None? then AttemptStart(c, s, cue, now)
      else if |s.pending| >= c.maxPending then Attempt(s, RejectedQueueFull)
      else
        var due := DueTime(s, cue);
        var queued := s.(sequence := s.sequence + 1);
        if due.None? || due.value > now then
          Attempt(queued.(pending := s.pending + [Pending(cue, s.sequence + 1, due)]), PendingAudio)
        else AttemptStart(c, queued, cue, now)
  }

  function Submit(c: Config, s: State, cue: Cue, now: real): Attempt {
    var a := Admit(c, Expire(s, now), cue, now);
    Attempt(Restore(c, a.state, now), a.status)
  }

  function Tick(c: Config, s: State, now: real): Batch {
    var b := StartDue(c, Expire(s, now), now);
    Batch(Restore(c, b.state, now), b.results)
  }

  function Noted(c: Config, s: State, marker: Marker): State {
    s.(markers := Newest(WithoutMarker(s.markers, marker.key) + [marker], c.maxMarkers),
       pending := BoundAll(s.pending, marker))
  }

  function NotifyAudio(c: Config, s: State, marker: Marker, now: real): Batch {
    if !s.connected || marker.generation != s.generation then Batch(s, [])
    else
      var b := StartDue(c, Noted(c, Expire(s, now), marker), now);
      Batch(Restore(c, b.state, now), b.results)
  }

  /** `advance_generation`; going backwards is an error that changes nothing. */
  function Advance(c: Config, s: State, generation: nat, now: real): State {
    if generation <= s.generation then s
    else
      var cleared := s.(generation := generation, pending := [], markers := []);
      Restore(c, StopEach(cleared, SortedActive(s), now, GenerationAdvanced, None, ALL_LAYERS), now)
  }

  function CancelIn(s: State, id: CueId, reason: StopReason, now: real): State {
    if HasPending(s.pending, id) then s.(pending := WithoutPending(s.pending, id))
    else if id in s.active then StopOne(s, s.active[id], now, reason, None, ALL_LAYERS)
    else s
  }

  function Cancel(c: Config, s: State, id: CueId, reason: StopReason, now: real): State {
    Restore(c, CancelIn(Expire(s, now), id, reason, now), now)
  }

  function Reset(c: Config, s: State, now: real): State {
    var stopped := StopEach(s.(pending := []), SortedActive(s), now, Cancelled, None, {});
    Restore(c, stopped.(needsNeutral := ALL_LAYERS, held := ALL_LAYERS), now)
  }

  /** `disconnect`; a reason that is not about the adapter is an error that changes nothing. */
  function Disconnect(s: State, reason: StopReason, now: real): State {
    if !s.connected || (reason != Disconnected && reason != AdapterFailure) then s
    else
      var quiet := s.(connected := false, pending := [], markers := [], needsNeutral := {}, held := {});
      StopEach(quiet, SortedActive(s), now, reason, None, {})
  }

  function Reconnect(c: Config, s: State, now: real): State {
    if s.connected then s
    else Restore(c, s.(connected := true, needsNeutral := ALL_LAYERS, held := ALL_LAYERS), now)
  }

  // ---- Runs ----

  datatype Op =
    | DoSubmit(cue: Cue)
    | DoNotify(marker: Marker)
    | DoTick
    | DoAdvance(generation: nat)
    | DoCancel(id: CueId, reason: StopReason)
    | DoReset
    | DoDisconnect(reason: StopReason)
    | DoReconnect

  /** One call of the scheduler's owner, with what the clock read during it. */
  datatype Call = Call(op: Op, now: real)

  function Apply(c: Config, s: State, call: Call): State {
    match call.op
    case DoSubmit(cue) => Submit(c, s, cue, call.now).state
    case DoNotify(marker) => NotifyAudio(c, s, marker, call.now).state
    case DoTick => Tick(c, s, call.now).state
    case DoAdvance(generation) => Advance(c, s, generation, call.now)
    case DoCancel(id, reason) => Cancel(c, s, id, reason, call.now)
    case DoReset => Reset(c, s, call.now)
    case DoDisconnect(reason) => Disconnect(s, reason, call.now)
    case DoReconnect => Reconnect(c, s, call.now)
  }

  function After(c: Config, generation: nat, calls: seq<Call>): State {
    if calls == [] then Init(generation)
    else Apply(c, After(c, generation, calls[..|calls| - 1]), calls[|calls| - 1])
  }

  /** Submitted cues are well formed and leave the neutral identifiers alone. */
  ghost predicate ProperCall(c: Config, call: Call) {
    call.op.DoSubmit? ==> ValidCue(call.op.cue) && !Reserved(c, call.op.cue.id, call.op.cue.generation)
  }

  ghost predicate ProperCalls(c: Config, calls: seq<Call>) {
    forall i :: 0 <= i < |calls| ==> ProperCall(c, calls[i])
  }
}
