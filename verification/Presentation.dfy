/** Values shared by the avatar presentation scheduler and its callers. */
module Presentation {
  import opened Text

  datatype Layer = Affect | Gaze | Gesture | Posture

  /** The layers in the order of their names, which is how the scheduler sorts them. */
  const LAYERS: seq<Layer> := [Affect, Gaze, Gesture, Posture]

  const ALL_LAYERS: set<Layer> := {Affect, Gaze, Gesture, Posture}

  /** Identifiers are only compared, so any totally ordered type will do. */
  type CueId = int

  datatype AudioKey = AudioKey(utteranceId: string, anchor: string, markerId: Option<string>)

  datatype Binding = Binding(key: AudioKey, offset: real)

  datatype Marker = Marker(key: AudioKey, generation: nat, occurredAt: real)

  /** The fields of a presentation cue that the scheduler reads. */
  datatype Cue = Cue(
    id: CueId,
    generation: nat,
    layer: Layer,
    priority: int,
    notAfter: Option<real>,
    lease: Option<real>,
    resources: set<string>,
    cooldownKey: Option<string>,
    cooldown: real,
    binding: Option<Binding>,
    neutral: bool,
    limitsExempt: bool)

  datatype Lease = Lease(cue: Cue, startedAt: real, expiresAt: Option<real>)

  datatype Pending = Pending(cue: Cue, sequence: nat, dueAt: Option<real>)

  datatype StopReason = Preempted | LeaseExpired | Cancelled | GenerationAdvanced | Disconnected | AdapterFailure

  datatype Event =
    | Started(sequence: nat, cue: Cue, at: real)
    | Stopped(sequence: nat, cue: Cue, at: real, reason: StopReason, replacedBy: Option<CueId>)

  datatype Status =
    | StatusStarted
    | PendingAudio
    | RejectedStaleGeneration
    | RejectedFutureGeneration
    | RejectedExpired
    | RejectedDuplicate
    | RejectedPriority
    | RejectedCooldown
    | RejectedRateLimit
    | RejectedQueueFull
    | RejectedDisconnected

  datatype RateLimit = RateLimit(maxStarts: nat, window: real)

  /** Scheduler policy and the factory for neutral cues, if there is one. */
  datatype Config = Config(
    globalLimit: Option<RateLimit>,
    layerLimits: map<Layer, RateLimit>,
    maxPending: nat,
    maxMarkers: nat,
    neutralCue: Option<(Layer, nat, real) -> Cue>,
    neutralId: (Layer, nat) -> CueId,
    neutralResources: Layer -> set<string>)

  ghost predicate ValidLimit(limit: RateLimit) {
    limit.maxStarts >= 1 && limit.window > 0.0
  }

  /** What the policy classes insist on, and a neutral factory that honours its contract: the right
      layer and generation, one identifier per layer and generation, resources fixed per layer. */
  ghost predicate ValidConfig(c: Config) {
    && (c.globalLimit.Some? ==> ValidLimit(c.globalLimit.value))
    && (forall l <- c.layerLimits :: ValidLimit(c.layerLimits[l]))
    && c.maxPending >= 1 && c.maxMarkers >= 1
    && (forall l, m, g :: c.neutralId(l, g) == c.neutralId(m, g) ==> l == m)
    && (c.neutralCue.Some? ==> forall l, g, t :: NeutralCueOk(c, l, g, c.neutralCue.value(l, g, t)))
  }

  ghost predicate NeutralCueOk(c: Config, l: Layer, g: nat, cue: Cue) {
    && cue.layer == l && cue.generation == g && cue.neutral
    && cue.id == c.neutralId(l, g) && cue.resources == c.neutralResources(l)
  }

  /** `id` is kept for a neutral cue of generation `g`. */
  ghost predicate Reserved(c: Config, id: CueId, g: nat) {
    exists l :: c.neutralId(l, g) == id
  }

  /** What the constructor of a cue insists on, as far as the scheduler relies on it. */
  predicate ValidCue(cue: Cue) {
    cue.cooldown >= 0.0 && (cue.lease.Some? ==> cue.lease.value > 0.0)
  }

  predicate Conflict(a: Cue, b: Cue) {
    a.layer == b.layer || !(a.resources !! b.resources)
  }

  /** Whether starts of `cue` are subject to cooldown and rate limits. */
  predicate Limited(cue: Cue) {
    !cue.limitsExempt && !cue.neutral
  }
}
