/** What every operation of the scheduler keeps. */
module SchedulerInvariant {
  import opened Text
  import opened Presentation
  import opened SchedulerSpec

  // ---- Leases ----

  /** The two indexes agree, a layer holds at most one lease, and no resource is leased twice. */
  ghost predicate Shape(active: map<CueId, Lease>, byLayer: map<Layer, CueId>) {
    && (forall id <- active :: active[id].cue.id == id)
    && (forall id <- active :: active[id].cue.layer in byLayer && byLayer[active[id].cue.layer] == id)
    && (forall l <- byLayer :: byLayer[l] in active && active[byLayer[l]].cue.layer == l)
    && (forall a, b :: a in active && b in active && a != b ==>
          active[a].cue.resources !! active[b].cue.resources)
  }

  ghost predicate OfGeneration(active: map<CueId, Lease>, generation: nat) {
    forall id <- active :: active[id].cue.generation == generation
  }

  // ---- The log ----

  /** The cues on stage after `log`, or `None` if the log starts a cue twice or stops one that is not
      on stage. */
  function Replay(log: seq<Event>): Option<map<CueId, Cue>> {
    if log == [] then Some(map[])
    else
      var last := log[|log| - 1];
      match Replay(log[..|log| - 1])
      case None => None
      case Some(stage) =>
        match last
        case Started(_, cue, _) => if cue.id in stage then None else Some(stage[cue.id := cue])
        case Stopped(_, cue, _, _, _) =>
          if cue.id in stage && stage[cue.id] == cue then Some(stage - {cue.id}) else None
  }

  function CuesOf(active: map<CueId, Lease>): map<CueId, Cue> {
    map id | id in active :: active[id].cue
  }

  ghost predicate Increasing(log: seq<Event>, sequence: nat) {
    && (forall i, j :: 0 <= i < j < |log| ==> log[i].sequence < log[j].sequence)
    && (forall i :: 0 <= i < |log| ==> log[i].sequence <= sequence)
  }

  ghost predicate LogOk(log: seq<Event>, active: map<CueId, Lease>, sequence: nat) {
    Replay(log) == Some(CuesOf(active)) && Increasing(log, sequence)
  }

  lemma ReplayLast(log: seq<Event>, event: Event)
    ensures Replay(log + [event])
         == match Replay(log)
            case None => None
            case Some(stage) =>
              match event
              case Started(_, cue, _) => if cue.id in stage then None else Some(stage[cue.id := cue])
              case Stopped(_, cue, _, _, _) =>
                if cue.id in stage && stage[cue.id] == cue then Some(stage - {cue.id}) else None
  {
    assert (log + [event])[..|log|] == log;
  }

  // ---- Stopping ----

  ghost predicate Listed(active: map<CueId, Lease>, leases: seq<Lease>) {
    && (forall i :: 0 <= i < |leases| ==> leases[i].cue.id in active && active[leases[i].cue.id] == leases[i])
    && (forall i, j :: 0 <= i < j < |leases| ==> leases[i].cue.id != leases[j].cue.id)
  }

  lemma RemovedShape(s: State, id: CueId)
    requires Shape(s.active, s.byLayer) && id in s.active
    ensures var r := Removed(s, id);
            && r.active == s.active - {id}
            && r.byLayer == s.byLayer - {s.active[id].cue.layer}
            && Shape(r.active, r.byLayer)
  {
  }

  lemma StopLog(log: seq<Event>, active: map<CueId, Lease>, sequence: nat, lease: Lease, now: real, reason: StopReason, heir: Option<CueId>)
    requires LogOk(log, active, sequence) && lease.cue.id in active && active[lease.cue.id] == lease
    ensures LogOk(log + [Stopped(sequence + 1, lease.cue, now, reason, heir)], active - {lease.cue.id}, sequence + 1)
  {
    hide Replay;
    ReplayLast(log, Stopped(sequence + 1, lease.cue, now, reason, heir));
    assert CuesOf(active) - {lease.cue.id} == CuesOf(active - {lease.cue.id});
  }

  lemma StartLog(log: seq<Event>, active: map<CueId, Lease>, sequence: nat, lease: Lease, now: real)
    requires LogOk(log, active, sequence) && lease.cue.id !in active
    ensures LogOk(log + [Started(sequence + 1, lease.cue, now)], active[lease.cue.id := lease], sequence + 1)
  {
    hide Replay;
    ReplayLast(log, Started(sequence + 1, lease.cue, now));
    assert CuesOf(active)[lease.cue.id := lease.cue] == CuesOf(active[lease.cue.id := lease]);
  }

  /** What stopping a list of leases leaves alone. */
  ghost predicate StopFrame(s: State, r: State) {
    r == s.(active := r.active, byLayer := r.byLayer, needsNeutral := r.needsNeutral,
            sequence := r.sequence, log := r.log)
  }

  function IdsOf(leases: seq<Lease>): set<CueId> {
    set i | 0 <= i < |leases| :: leases[i].cue.id
  }

  function LayersOf(leases: seq<Lease>): set<Layer> {
    set i | 0 <= i < |leases| :: leases[i].cue.layer
  }

  lemma StopOneEffect(s: State, lease: Lease, now: real, reason: StopReason, heir: Option<CueId>, mark: set<Layer>)
    requires Shape(s.active, s.byLayer) && LogOk(s.log, s.active, s.sequence)
    requires lease.cue.id in s.active && s.active[lease.cue.id] == lease
    ensures var r := StopOne(s, lease, now, reason, heir, mark);
            && StopFrame(s, r)
            && r.active == s.active - {lease.cue.id}
            && r.byLayer == s.byLayer - {lease.cue.layer}
            && Shape(r.active, r.byLayer) && LogOk(r.log, r.active, r.sequence)
            && r.needsNeutral == s.needsNeutral + ({lease.cue.layer} * mark)
  {
    hide Replay, Shape, LogOk;
    RemovedShape(s, lease.cue.id);
    StopLog(s.log, s.active, s.sequence, lease, now, reason, heir);
  }

  /** Stopping a list of distinct active leases removes exactly those, reports each, and keeps the
      indexes and the log in order. */
  lemma {:induction false} StopEachEffect(s: State, leases: seq<Lease>, now: real, reason: StopReason, heir: Option<CueId>, mark: set<Layer>)
    requires Shape(s.active, s.byLayer) && LogOk(s.log, s.active, s.sequence) && Listed(s.active, leases)
    ensures var r := StopEach(s, leases, now, reason, heir, mark);
            && StopFrame(s, r)
            && r.active == s.active - IdsOf(leases)
            && r.byLayer == s.byLayer - LayersOf(leases)
            && Shape(r.active, r.byLayer) && LogOk(r.log, r.active, r.sequence)
            && r.needsNeutral == s.needsNeutral + (LayersOf(leases) * mark)
    decreases |leases|
  {
    hide Replay, Shape, LogOk, StopOne;
    if leases != [] {
      var next := StopOne(s, leases[0], now, reason, heir, mark);
      StopOneEffect(s, leases[0], now, reason, heir, mark);
      ListedRest(s.active, leases);
      StopEachEffect(next, leases[1..], now, reason, heir, mark);
      IdsSplit(leases);
    }
  }

  lemma ListedRest(active: map<CueId, Lease>, leases: seq<Lease>)
    requires Listed(active, leases) && leases != []
    ensures Listed(active - {leases[0].cue.id}, leases[1..])
  {
  }

  lemma IdsSplit(leases: seq<Lease>)
    requires leases != []
    ensures IdsOf(leases) == {leases[0].cue.id} + IdsOf(leases[1..])
    ensures LayersOf(leases) == {leases[0].cue.layer} + LayersOf(leases[1..])
  {
    forall i | 1 <= i < |leases|
      ensures leases[i] == leases[1..][i - 1]
    {
    }
  }

  // ---- The lists the scheduler walks ----

  /** `leases` names active leases, each at most once, through its layer. */
  ghost predicate Walk(active: map<CueId, Lease>, byLayer: map<Layer, CueId>, layers: seq<Layer>, leases: seq<Lease>) {
    && Listed(active, leases)
    && (forall x :: x in leases ==> x.cue.layer in layers)
    && (forall l :: l in layers && l in byLayer ==> byLayer[l] in active && active[byLayer[l]] in leases)
  }

  lemma {:induction false} LeasesInWalk(active: map<CueId, Lease>, byLayer: map<Layer, CueId>, layers: seq<Layer>)
    requires Shape(active, byLayer)
    requires forall i, j :: 0 <= i < j < |layers| ==> layers[i] != layers[j]
    ensures Walk(active, byLayer, layers, LeasesIn(active, byLayer, layers))
    decreases |layers|
  {
    if layers != [] {
      LeasesInWalk(active, byLayer, layers[1..]);
      var l, rest := layers[0], LeasesIn(active, byLayer, layers[1..]);
      assert l !in layers[1..];
      if l in byLayer {
        var lease := active[byLayer[l]];
        assert byLayer[l] in active && lease.cue.id == byLayer[l];
        ListedFirst(active, lease, rest);
      }
    }
  }

  lemma ListedFirst(active: map<CueId, Lease>, x: Lease, rest: seq<Lease>)
    requires Listed(active, rest) && x.cue.id in active && active[x.cue.id] == x
    requires forall y :: y in rest ==> y.cue.layer != x.cue.layer
    ensures Listed(active, [x] + rest)
  {
    forall i | 0 <= i < |rest|
      ensures rest[i].cue.id != x.cue.id
    {
      assert rest[i] in rest;
    }
  }

  /** The sorted leases are all of them. */
  lemma SortedActiveAll(s: State)
    requires Shape(s.active, s.byLayer)
    ensures Listed(s.active, SortedActive(s))
    ensures forall id <- s.active :: s.active[id] in SortedActive(s)
  {
    hide LeasesIn;
    LeasesInWalk(s.active, s.byLayer, LAYERS);
    forall id | id in s.active
      ensures s.active[id] in SortedActive(s)
    {
      LayerListed(s.active[id].cue.layer);
    }
  }

  lemma WalkSets(active: map<CueId, Lease>, byLayer: map<Layer, CueId>, leases: seq<Lease>)
    requires Shape(active, byLayer) && Listed(active, leases)
    requires forall id <- active :: active[id] in leases
    ensures IdsOf(leases) == active.Keys
    ensures LayersOf(leases) == byLayer.Keys
  {
    forall id | id in active
      ensures id in IdsOf(leases) && active[id].cue.layer in LayersOf(leases)
    {
      var i :| 0 <= i < |leases| && leases[i] == active[id];
      assert leases[i].cue.id == id;
    }
    forall l | l in byLayer
      ensures l in LayersOf(leases)
    {
      var id := byLayer[l];
      assert id in active && active[id].cue.layer == l;
    }
  }

  lemma LayerListed(l: Layer)
    ensures l in LAYERS && l in ALL_LAYERS
  {
    match l
    case Affect => assert LAYERS[0] == l;
    case Gaze => assert LAYERS[1] == l;
    case Gesture => assert LAYERS[2] == l;
    case Posture => assert LAYERS[3] == l;
  }

  lemma {:induction false} ConflictingListed(active: map<CueId, Lease>, leases: seq<Lease>, cue: Cue)
    requires Listed(active, leases)
    ensures Listed(active, Conflicting(leases, cue))
    ensures forall x :: x in Conflicting(leases, cue) <==> x in leases && Conflict(x.cue, cue)
  {
    hide Conflict;
    if leases != [] {
      ListedTail(active, leases);
      ConflictingListed(active, leases[1..], cue);
      ListedSub(active, leases, Conflicting(leases[1..], cue));
    }
  }

  lemma {:induction false} ExpiredListed(active: map<CueId, Lease>, leases: seq<Lease>, now: real)
    requires Listed(active, leases)
    ensures Listed(active, ExpiredIn(leases, now))
    ensures forall x :: x in ExpiredIn(leases, now) <==> x in leases && Expired(x, now)
  {
    hide Expired;
    if leases != [] {
      ListedTail(active, leases);
      ExpiredListed(active, leases[1..], now);
      ListedSub(active, leases, ExpiredIn(leases[1..], now));
    }
  }

  lemma ListedTail(active: map<CueId, Lease>, leases: seq<Lease>)
    requires Listed(active, leases) && leases != []
    ensures Listed(active, leases[1..])
  {
  }

  lemma ListedSub(active: map<CueId, Lease>, leases: seq<Lease>, sub: seq<Lease>)
    requires Listed(active, leases) && leases != [] && Listed(active, sub)
    requires forall x :: x in sub ==> x in leases[1..]
    ensures Listed(active, [leases[0]] + sub)
  {
    forall i | 0 <= i < |sub|
      ensures sub[i].cue.id != leases[0].cue.id
    {
      assert sub[i] in sub;
    }
  }

  lemma {:induction false} InsertListed(active: map<CueId, Lease>, x: Lease, s: seq<Lease>)
    requires Listed(active, s) && x.cue.id in active && active[x.cue.id] == x
    requires forall y :: y in s ==> y.cue.id != x.cue.id
    ensures Listed(active, InsertLease(x, s))
    ensures forall y :: y in InsertLease(x, s) <==> y == x || y in s
  {
    hide Ahead;
    if s == [] || Ahead(x, s[0]) {
      forall i | 0 <= i < |s|
        ensures s[i].cue.id != x.cue.id
      {
        assert s[i] in s;
      }
    } else {
      ListedTail(active, s);
      InsertListed(active, x, s[1..]);
      InsertAfter(active, x, s);
    }
  }

  lemma InsertAfter(active: map<CueId, Lease>, x: Lease, s: seq<Lease>)
    requires Listed(active, s) && s != [] && s[0].cue.id != x.cue.id
    requires Listed(active, InsertLease(x, s[1..]))
    requires forall y :: y in InsertLease(x, s[1..]) <==> y == x || y in s[1..]
    ensures Listed(active, [s[0]] + InsertLease(x, s[1..]))
  {
    hide InsertLease;
    var t := InsertLease(x, s[1..]);
    forall i | 0 <= i < |t|
      ensures t[i].cue.id != s[0].cue.id
    {
      assert t[i] in t;
    }
  }

  lemma {:induction false} SortListed(active: map<CueId, Lease>, s: seq<Lease>)
    requires Listed(active, s)
    ensures Listed(active, SortLeases(s))
    ensures forall x :: x in SortLeases(s) <==> x in s
  {
    hide InsertLease;
    if s != [] {
      ListedTail(active, s);
      SortListed(active, s[1..]);
      forall y | y in SortLeases(s[1..])
        ensures y.cue.id != s[0].cue.id
      {
        assert y in s[1..];
      }
      InsertListed(active, s[0], SortLeases(s[1..]));
    }
  }

  /** The conflicts of a cue are exactly the active leases in its way, each listed once. */
  lemma ConflictsAll(s: State, cue: Cue)
    requires Shape(s.active, s.byLayer)
    ensures Listed(s.active, ConflictsOf(s, cue))
    ensures forall id <- s.active :: Conflict(s.active[id].cue, cue) <==> s.active[id] in ConflictsOf(s, cue)
    ensures forall x :: x in ConflictsOf(s, cue) ==> Conflict(x.cue, cue)
  {
    hide Conflict, SortLeases, Conflicting, SortedActive, Shape, Listed;
    SortedActiveAll(s);
    ConflictingListed(s.active, SortedActive(s), cue);
    SortListed(s.active, Conflicting(SortedActive(s), cue));
  }
}
