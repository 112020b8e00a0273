/** What a tick and an audio marker start: every due cue is attempted, in order, and the log shows which of
    the attempts succeeded. */
module SchedulerDue {
  import opened Text
  import opened Presentation
  import opened SchedulerSpec
  import opened SchedulerInvariant
  import opened SchedulerSteps
  import opened SchedulerTiming
  import opened SchedulerDecisions
  import Scheduler

  // ---- What a log says was started ----

  function StartCues(log: seq<Event>): seq<Cue> {
    if log == [] then []
    else StartCues(log[..|log| - 1]) + if log[|log| - 1].Started? then [log[|log| - 1].cue] else []
  }

  lemma StartCuesLast(log: seq<Event>, event: Event)
    ensures StartCues(log + [event]) == StartCues(log) + if event.Started? then [event.cue] else []
  {
    assert (log + [event])[..|log|] == log;
  }

  lemma {:induction false} StopEachStarts(s: State, leases: seq<Lease>, now: real, reason: StopReason, heir: Option<CueId>, mark: set<Layer>)
    ensures StartCues(StopEach(s, leases, now, reason, heir, mark).log) == StartCues(s.log)
    decreases |leases|
  {
    hide Removed, StartCues;
    if leases != [] {
      StartCuesLast(s.log, Stopped(s.sequence + 1, leases[0].cue, now, reason, heir));
      StopEachStarts(StopOne(s, leases[0], now, reason, heir, mark), leases[1..], now, reason, heir, mark);
    }
  }

  lemma BeginStarts(c: Config, s: State, cue: Cue, now: real)
    ensures StartCues(Begin(c, s, cue, now).log) == StartCues(s.log) + [cue]
  {
    hide StopEach, ConflictsOf, StartCues;
    var mark := ALL_LAYERS - {cue.layer};
    StopEachStarts(s, ConflictsOf(s, cue), now, Preempted, Some(cue.id), mark);
    var cleared := StopEach(s, ConflictsOf(s, cue), now, Preempted, Some(cue.id), mark);
    StartCuesLast(cleared.log, Started(cleared.sequence + 1, cue, now));
  }

  function Only(started: bool, cue: Cue): seq<Cue> {
    if started then [cue] else []
  }

  /** An attempt starts the cue and nothing else, or nothing. */
  lemma AttemptStarts(c: Config, s: State, cue: Cue, now: real)
    ensures var a := AttemptStart(c, s, cue, now);
      StartCues(a.state.log) == StartCues(s.log) + Only(a.status == StatusStarted, cue)
  {
    hide Begin, ConflictsOf, Blocked, WithinLimits, CoolingDown, StartCues;
    LimitsFrame(c, s, cue.layer, now);
    BeginStarts(c, s, cue, now);
    BeginStarts(c, WithinLimits(c, s, cue.layer, now).state, cue, now);
    assert StartCues(s.log) + [] == StartCues(s.log);
  }

  lemma ExpireStarts(s: State, now: real)
    ensures StartCues(Expire(s, now).log) == StartCues(s.log)
  {
    hide StopEach, SortedActive, ExpiredIn, TimelyIn, CoolAt, StartCues;
    StopEachStarts(s, ExpiredIn(SortedActive(s), now), now, LeaseExpired, None, ALL_LAYERS);
  }

  /** The neutral cue of some layer. */
  ghost predicate IsNeutral(c: Config, generation: nat, now: real, cue: Cue) {
    c.neutralCue.Some? && exists l: Layer :: cue == c.neutralCue.value(l, generation, now)
  }

  ghost predicate AllNeutral(c: Config, generation: nat, now: real, cues: seq<Cue>) {
    forall i | 0 <= i < |cues| :: IsNeutral(c, generation, now, cues[i])
  }

  lemma {:induction false} RestoreEachStarts(c: Config, s: State, layers: seq<Layer>, now: real) returns (neutrals: seq<Cue>)
    requires c.neutralCue.Some?
    ensures StartCues(RestoreEach(c, s, layers, now).log) == StartCues(s.log) + neutrals
    ensures AllNeutral(c, s.generation, now, neutrals)
    decreases |layers|
  {
    hide ConflictsOf, StartCues;
    neutrals := [];
    if layers == [] {
      assert StartCues(s.log) + [] == StartCues(s.log);
    } else {
      var r := RestoreLayer(c, s, layers[0], now);
      var rest := RestoreEachStarts(c, r, layers[1..], now);
      if r.log == s.log {
        neutrals := rest;
      } else {
        var cue := c.neutralCue.value(layers[0], s.generation, now);
        StartCuesLast(s.log, Started(s.sequence + 1, cue, now));
        assert (StartCues(s.log) + [cue]) + rest == StartCues(s.log) + ([cue] + rest);
        neutrals := [cue] + rest;
      }
    }
  }

  lemma RestoreStarts(c: Config, s: State, now: real) returns (neutrals: seq<Cue>)
    ensures StartCues(Restore(c, s, now).log) == StartCues(s.log) + neutrals
    ensures AllNeutral(c, s.generation, now, neutrals)
  {
    hide RestoreEach, StartCues;
    if s.connected && c.neutralCue.Some? {
      neutrals := RestoreEachStarts(c, s, LAYERS, now);
    } else {
      neutrals := [];
      assert StartCues(s.log) + [] == StartCues(s.log);
    }
  }

  // ---- The order of attempts ----

  /** Due earlier, or at the same time and more important, or in that case submitted earlier. */
  predicate AttemptedBefore(a: Pending, b: Pending) {
    && a.dueAt.Some? && b.dueAt.Some?
    && (|| a.dueAt.value < b.dueAt.value
        || (a.dueAt.value == b.dueAt.value && a.cue.priority > b.cue.priority)
        || (a.dueAt.value == b.dueAt.value && a.cue.priority == b.cue.priority && a.sequence <= b.sequence))
  }

  ghost predicate InAttemptOrder(due: seq<Pending>) {
    forall i, j | 0 <= i < j < |due| :: AttemptedBefore(due[i], due[j])
  }

  lemma {:induction false} InsertDueOrders(x: Pending, s: seq<Pending>)
    requires InAttemptOrder(s) && x.dueAt.Some? && forall i | 0 <= i < |s| :: s[i].dueAt.Some?
    ensures InAttemptOrder(InsertDue(x, s))
  {
    if s == [] || Sooner(x, s[0]) {
      forall j | 0 <= j < |s| ensures AttemptedBefore(x, s[j]) {
        assert j > 0 ==> AttemptedBefore(s[0], s[j]);
      }
    } else {
      TailOrdered(s);
      InsertDueOrders(x, s[1..]);
      InsertDueSame(x, s[1..]);
      var r := InsertDue(x, s[1..]);
      forall j | 0 <= j < |r| ensures AttemptedBefore(s[0], r[j]) {
        assert r[j] in r;
        FirstBefore(s, x, r[j]);
      }
    }
  }

  lemma TailOrdered(s: seq<Pending>)
    requires InAttemptOrder(s) && s != []
    ensures InAttemptOrder(s[1..])
  {
    hide AttemptedBefore;
  }

  lemma FirstBefore(s: seq<Pending>, x: Pending, y: Pending)
    requires s != [] && InAttemptOrder(s) && s[0].dueAt.Some? && x.dueAt.Some? && !Sooner(x, s[0])
    requires y == x || y in s[1..]
    ensures AttemptedBefore(s[0], y)
  {
    if y != x {
      var i :| 0 <= i < |s[1..]| && s[1..][i] == y;
      assert AttemptedBefore(s[0], s[i + 1]);
    }
  }

  lemma {:induction false} SortDueOrders(s: seq<Pending>)
    requires forall i | 0 <= i < |s| :: s[i].dueAt.Some?
    ensures InAttemptOrder(SortDue(s))
  {
    hide InsertDue;
    if s != [] {
      SortDueOrders(s[1..]);
      SortDueSame(s[1..]);
      var r := SortDue(s[1..]);
      forall i | 0 <= i < |r| ensures r[i].dueAt.Some? {
        assert r[i] in r;
      }
      InsertDueOrders(s[0], r);
    }
  }

  lemma {:induction false} InsertDueDistinct(x: Pending, s: seq<Pending>)
    requires DistinctIds(s) && forall i | 0 <= i < |s| :: s[i].cue.id != x.cue.id
    ensures DistinctIds(InsertDue(x, s))
  {
    hide Sooner;
    if s != [] && !Sooner(x, s[0]) {
      InsertDueDistinct(x, s[1..]);
      InsertDueSame(x, s[1..]);
      var r := InsertDue(x, s[1..]);
      forall j | 0 <= j < |r| ensures r[j].cue.id != s[0].cue.id {
        assert r[j] in r;
      }
    }
  }

  lemma {:induction false} SortDueDistinct(s: seq<Pending>)
    requires DistinctIds(s)
    ensures DistinctIds(SortDue(s))
  {
    hide InsertDue;
    if s != [] {
      SortDueDistinct(s[1..]);
      SortDueSame(s[1..]);
      var r := SortDue(s[1..]);
      forall j | 0 <= j < |r| ensures r[j].cue.id != s[0].cue.id {
        assert r[j] in r;
      }
      InsertDueDistinct(s[0], r);
    }
  }

  // ---- The batch ----

  function StartedOf(results: seq<Result>): seq<Cue> {
    if results == [] then []
    else Only(results[0].status == StatusStarted, results[0].cue) + StartedOf(results[1..])
  }

  /** The results of attempting `due` in turn, starting from `b`. */
  ghost predicate Attempted(c: Config, b: Batch, due: seq<Pending>, now: real, end: Batch, results: seq<Result>) {
    && end.results == b.results + results && |results| == |due|
    && (forall k | 0 <= k < |due| :: results[k].cue == due[k].cue)
    && StartCues(end.state.log) == StartCues(b.state.log) + StartedOf(results)
    && (due != [] ==> (results[0].status == StatusStarted <==> MayStart(c, b.state, due[0].cue, now)))
  }

  lemma StartNextAttempts(c: Config, b: Batch, p: Pending, now: real) returns (result: Result)
    requires Shape(b.state.active, b.state.byLayer) && Timing(c, b.state, now) && p in b.state.pending
    ensures var n := StartNext(c, b, p, now);
      && n.results == b.results + [result] && result.cue == p.cue
      && StartCues(n.state.log) == StartCues(b.state.log) + Only(result.status == StatusStarted, p.cue)
      && (result.status == StatusStarted <==> MayStart(c, b.state, p.cue, now))
  {
    hide AttemptStart, WithoutPending, Shape, GlobalOk, LayersOk, CoolOk, Apart, StartCues, Unopposed, StillCooling, HasRoom;
    var i :| 0 <= i < |b.state.pending| && b.state.pending[i] == p;
    assert HasPending(b.state.pending, p.cue.id);
    var s := b.state.(pending := WithoutPending(b.state.pending, p.cue.id));
    AttemptDecides(c, s, p.cue, now);
    AttemptStarts(c, s, p.cue, now);
    result := Result(p.cue, AttemptStart(c, s, p.cue, now).status);
  }

  lemma {:induction false} StartEachAttempts(c: Config, b: Batch, due: seq<Pending>, now: real) returns (results: seq<Result>)
    requires Inv(c, b.state) && Timing(c, b.state, now) && DistinctIds(due)
    requires forall k | 0 <= k < |due| :: due[k] in b.state.pending
    ensures Attempted(c, b, due, now, StartEach(c, b, due, now), results)
    decreases |due|
  {
    hide Inv, Timing, StartNext, StartCues, MayStart;
    if due == [] {
      results := [];
      assert b.results + [] == b.results;
      assert StartCues(b.state.log) + [] == StartCues(b.state.log);
    } else {
      var p, rest := due[0], due[1..];
      InvShape(c, b.state);
      var first := StartNextAttempts(c, b, p, now);
      var n := StartNext(c, b, p, now);
      NextIsReady(c, b, due, now);
      var more := StartEachAttempts(c, n, rest, now);
      results := [first] + more;
      JoinAttempts(c, b, due, now, n, StartEach(c, n, rest, now), first, more);
    }
  }

  /** After the first attempt the others are still pending, and everything is in order for them. */
  lemma NextIsReady(c: Config, b: Batch, due: seq<Pending>, now: real)
    requires Inv(c, b.state) && Timing(c, b.state, now) && DistinctIds(due) && due != []
    requires forall k | 0 <= k < |due| :: due[k] in b.state.pending
    ensures var n := StartNext(c, b, due[0], now);
      && Inv(c, n.state) && Timing(c, n.state, now) && DistinctIds(due[1..])
      && forall k | 0 <= k < |due| - 1 :: due[1..][k] in n.state.pending
  {
    hide Inv, Timing, PendingCueOk;
    PendingIsOk(c, b.state, due[0]);
    StartNextKeeps(c, b, due[0], now);
    assert StartEach(c, b, [due[0]], now) == StartNext(c, b, due[0], now) by { OneAtATime(c, b, due[0], now); }
    StartEachTiming(c, b, [due[0]], now);
    hide StartNext, StartEach;
    StartNextLeaves(c, b, due[0], now);
    forall k | 0 <= k < |due| - 1 ensures due[1..][k] in StartNext(c, b, due[0], now).state.pending {
      assert due[1..][k] == due[k + 1];
    }
  }

  lemma OneAtATime(c: Config, b: Batch, p: Pending, now: real)
    ensures StartEach(c, b, [p], now) == StartNext(c, b, p, now)
  {
    hide StartNext;
    assert [p][1..] == [];
    assert StartEach(c, StartNext(c, b, p, now), [], now) == StartNext(c, b, p, now);
  }

  lemma PendingIsOk(c: Config, s: State, p: Pending)
    requires Inv(c, s) && p in s.pending
    ensures PendingCueOk(c, s.generation, p.cue)
  {
    hide LeasesOk, LogOk, Handovers, HeldOk, PendingCueOk;
  }

  lemma JoinAttempts(c: Config, b: Batch, due: seq<Pending>, now: real, n: Batch, end: Batch, first: Result, more: seq<Result>)
    requires due != [] && n.results == b.results + [first] && first.cue == due[0].cue
    requires StartCues(n.state.log) == StartCues(b.state.log) + Only(first.status == StatusStarted, first.cue)
    requires first.status == StatusStarted <==> MayStart(c, b.state, due[0].cue, now)
    requires Attempted(c, n, due[1..], now, end, more)
    ensures Attempted(c, b, due, now, end, [first] + more)
  {
    hide StartCues, MayStart;
    var results := [first] + more;
    assert (b.results + [first]) + more == b.results + results;
    assert results[1..] == more;
    assert (StartCues(b.state.log) + Only(first.status == StatusStarted, first.cue)) + StartedOf(more)
      == StartCues(b.state.log) + StartedOf(results);
    forall k | 0 <= k < |due| ensures results[k].cue == due[k].cue {
      assert k > 0 ==> results[k] == more[k - 1] && due[k] == due[1..][k - 1];
    }
  }

  lemma StartDueAttempts(c: Config, s: State, now: real) returns (due: seq<Pending>)
    requires Inv(c, s) && Timing(c, s, now)
    ensures forall x :: x in due <==> x in s.pending && x.dueAt.Some? && x.dueAt.value <= now
    ensures DistinctIds(due) && InAttemptOrder(due)
    ensures Attempted(c, Batch(s, []), due, now, StartDue(c, s, now), StartDue(c, s, now).results)
  {
    hide Inv, Timing, StartEach, SortDue, DueIn, StartCues, MayStart;
    InvDistinct(c, s);
    DueSubset(s.pending, now);
    SortDueSame(DueIn(s.pending, now));
    SortDueDistinct(DueIn(s.pending, now));
    forall i | 0 <= i < |DueIn(s.pending, now)| ensures DueIn(s.pending, now)[i].dueAt.Some? {
      assert DueIn(s.pending, now)[i] in DueIn(s.pending, now);
    }
    SortDueOrders(DueIn(s.pending, now));
    due := SortDue(DueIn(s.pending, now));
    forall k | 0 <= k < |due| ensures due[k] in s.pending {
      assert due[k] in due;
    }
    var results := StartEachAttempts(c, Batch(s, []), due, now);
    assert [] + results == results;
  }

  // ---- Whole runs ----

  /** In every run a tick attempts exactly the timely cues that are due, in order, one result each. Its log
      shows the start of those that succeeded, then neutral cues, and no other start; the first attempt
      succeeds exactly when its cue may start once expired leases are gone. */
  lemma TickAttempts(c: Config, generation: nat, calls: seq<Call>, now: real) returns (due: seq<Pending>, neutrals: seq<Cue>)
    requires ValidConfig(c) && ProperCalls(c, calls) && ClockNeverGoesBack(calls)
    requires forall i :: 0 <= i < |calls| ==> calls[i].now <= now
    ensures var s := After(c, generation, calls); var t := Tick(c, s, now);
      && (forall x :: x in due <==> x in s.pending && Timely(x.cue, now) && x.dueAt.Some? && x.dueAt.value <= now)
      && DistinctIds(due) && InAttemptOrder(due)
      && |t.results| == |due| && (forall k | 0 <= k < |due| :: t.results[k].cue == due[k].cue)
      && StartCues(t.state.log) == StartCues(s.log) + StartedOf(t.results) + neutrals
      && AllNeutral(c, s.generation, now, neutrals)
      && (due != [] ==> (t.results[0].status == StatusStarted <==> MayStart(c, Expire(s, now), due[0].cue, now)))
  {
    hide After, Inv, Timing, Expire, StartDue, Restore, StartCues, MayStart, ValidConfig, DistinctIds, InAttemptOrder, StartedOf, AllNeutral, Recovered;
    ReachableInv(c, generation, calls);
    RunTiming(c, generation, calls, now);
    var s := After(c, generation, calls);
    var e := Expire(s, now);
    ExpireKeeps(c, s, now);
    ExpireTiming(c, s, now);
    ExpireStarts(s, now);
    due := StartDueAttempts(c, e, now);
    var b := StartDue(c, e, now);
    StartDueKeeps(c, e, now);
    neutrals := RestoreStarts(c, b.state, now);
    DueAfterExpiry(c, s, now, due);
    assert [] + b.results == b.results;
  }

  lemma DueAfterExpiry(c: Config, s: State, now: real, due: seq<Pending>)
    requires Inv(c, s)
    requires forall x :: x in due <==> x in Expire(s, now).pending && x.dueAt.Some? && x.dueAt.value <= now
    ensures forall x :: x in due <==> x in s.pending && Timely(x.cue, now) && x.dueAt.Some? && x.dueAt.value <= now
  {
    hide Inv, Expire;
    ExpirePending(c, s, now);
    forall x: Pending ensures Timely(x.cue, now) <==> !TooLate(x.cue, now) {
      TimelyIs(x, now);
    }
    hide Timely, TooLate;
  }

  /** A pending cue once a marker has been heard: bound to it, the cue is due its offset after the marker. */
  function Rebound(x: Pending, marker: Marker): Pending {
    if x.cue.binding.Some? && x.cue.binding.value.key == marker.key
    then Pending(x.cue, x.sequence, Some(marker.occurredAt + x.cue.binding.value.offset))
    else x
  }

  lemma {:induction false} BoundAllMembers(pending: seq<Pending>, marker: Marker)
    ensures forall x :: x in BoundAll(pending, marker) <==> exists y :: y in pending && x == Rebound(y, marker)
  {
    if pending != [] {
      BoundAllMembers(pending[1..], marker);
      var rest := BoundAll(pending[1..], marker);
      assert Bound(pending[0], marker) == Rebound(pending[0], marker);
      forall x ensures x in BoundAll(pending, marker) <==> exists y :: y in pending && x == Rebound(y, marker) {
        BoundAllMember(pending, marker, rest, x);
      }
    }
  }

  lemma BoundAllMember(pending: seq<Pending>, marker: Marker, rest: seq<Pending>, x: Pending)
    requires pending != [] && BoundAll(pending, marker) == [Rebound(pending[0], marker)] + rest
    requires x in rest <==> exists y :: y in pending[1..] && x == Rebound(y, marker)
    ensures x in BoundAll(pending, marker) <==> exists y :: y in pending && x == Rebound(y, marker)
  {
    hide BoundAll, Rebound;
    if x in BoundAll(pending, marker) {
      if x in rest {
        var y :| y in pending[1..] && x == Rebound(y, marker);
        assert y in pending;
      } else {
        assert pending[0] in pending;
      }
    }
    if y :| y in pending && x == Rebound(y, marker) {
      assert y == pending[0] || y in pending[1..];
    }
  }

  /** The same for an audio marker of the current generation, which first binds the cues that wait for it. */
  lemma MarkerAttempts(c: Config, generation: nat, calls: seq<Call>, marker: Marker, now: real) returns (due: seq<Pending>, neutrals: seq<Cue>)
    requires ValidConfig(c) && ProperCalls(c, calls) && ClockNeverGoesBack(calls)
    requires forall i :: 0 <= i < |calls| ==> calls[i].now <= now
    requires var s := After(c, generation, calls); s.connected && marker.generation == s.generation
    ensures var s := After(c, generation, calls); var t := NotifyAudio(c, s, marker, now);
      && (forall x :: x in due <==> (x.dueAt.Some? && x.dueAt.value <= now
            && exists y :: y in s.pending && Timely(y.cue, now) && x == Rebound(y, marker)))
      && DistinctIds(due) && InAttemptOrder(due)
      && |t.results| == |due| && (forall k | 0 <= k < |due| :: t.results[k].cue == due[k].cue)
      && StartCues(t.state.log) == StartCues(s.log) + StartedOf(t.results) + neutrals
      && AllNeutral(c, s.generation, now, neutrals)
      && (due != [] ==> (t.results[0].status == StatusStarted <==> MayStart(c, Expire(s, now), due[0].cue, now)))
  {
    hide After, Inv, Timing, Expire, StartDue, Restore, StartCues, MayStart, ValidConfig, DistinctIds, InAttemptOrder, StartedOf, AllNeutral, Recovered, Noted, Rebound, Timely;
    ReachableInv(c, generation, calls);
    RunTiming(c, generation, calls, now);
    var s := After(c, generation, calls);
    var e := Expire(s, now);
    ExpireKeeps(c, s, now);
    ExpireTiming(c, s, now);
    ExpireStarts(s, now);
    NotedKeeps(c, e, marker);
    NotedFrame(c, e, marker, now);
    var n := Noted(c, e, marker);
    due := StartDueAttempts(c, n, now);
    var b := StartDue(c, n, now);
    StartDueKeeps(c, n, now);
    neutrals := RestoreStarts(c, b.state, now);
    ReboundDue(c, s, marker, now, due);
    assert [] + b.results == b.results;
    if due != [] {
      NotedMayStart(c, e, marker, due[0].cue, now);
    }
  }

  lemma NotedFrame(c: Config, s: State, marker: Marker, now: real)
    requires Timing(c, s, now)
    ensures Timing(c, Noted(c, s, marker), now) && Noted(c, s, marker).log == s.log
    ensures Noted(c, s, marker).generation == s.generation
  {
    hide GlobalOk, LayersOk, CoolOk, Apart, Newest, WithoutMarker, BoundAll;
  }

  lemma NotedMayStart(c: Config, s: State, marker: Marker, cue: Cue, now: real)
    ensures MayStart(c, Noted(c, s, marker), cue, now) <==> MayStart(c, s, cue, now)
  {
    hide Unopposed, StillCooling, HasRoom, Newest, WithoutMarker, BoundAll;
  }

  lemma ReboundDue(c: Config, s: State, marker: Marker, now: real, due: seq<Pending>)
    requires Inv(c, s)
    requires forall x :: x in due <==> x in Noted(c, Expire(s, now), marker).pending && x.dueAt.Some? && x.dueAt.value <= now
    ensures forall x :: x in due <==> (x.dueAt.Some? && x.dueAt.value <= now
              && exists y :: y in s.pending && Timely(y.cue, now) && x == Rebound(y, marker))
  {
    hide Inv, Expire, BoundAll, Rebound, Newest, WithoutMarker;
    var e := Expire(s, now);
    BoundAllMembers(e.pending, marker);
    ExpirePending(c, s, now);
    forall y: Pending ensures Timely(y.cue, now) <==> !TooLate(y.cue, now) {
      TimelyIs(y, now);
    }
    hide Timely, TooLate;
  }

  // ---- Submitting ----

  /** A submission starts its cue, if the status says so, then neutral cues, and nothing else. */
  lemma SubmitStarts(c: Config, generation: nat, calls: seq<Call>, cue: Cue, now: real) returns (neutrals: seq<Cue>)
    requires ValidConfig(c) && ProperCalls(c, calls)
    ensures var s := After(c, generation, calls); var a := Submit(c, s, cue, now);
      && StartCues(a.state.log) == StartCues(s.log) + Only(a.status == StatusStarted, cue) + neutrals
      && AllNeutral(c, a.state.generation, now, neutrals)
  {
    hide After, Expire, Restore, StartCues, AttemptStart, HasPending, AllNeutral, ValidConfig, FindMarker, Inv, Recovered;
    var s := After(c, generation, calls);
    var e := Expire(s, now);
    ExpireStarts(s, now);
    AttemptStarts(c, e, cue, now);
    AttemptStarts(c, e.(sequence := e.sequence + 1), cue, now);
    assert StartCues(e.log) + [] == StartCues(e.log);
    var a := Admit(c, e, cue, now);
    neutrals := RestoreStarts(c, a.state, now);
    RestoreGeneration(c, a.state, now);
  }

  lemma {:induction false} RestoreEachGeneration(c: Config, s: State, layers: seq<Layer>, now: real)
    requires c.neutralCue.Some?
    ensures RestoreEach(c, s, layers, now).generation == s.generation
    decreases |layers|
  {
    hide ConflictsOf;
    if layers != [] {
      RestoreEachGeneration(c, RestoreLayer(c, s, layers[0], now), layers[1..], now);
    }
  }

  lemma RestoreGeneration(c: Config, s: State, now: real)
    ensures Restore(c, s, now).generation == s.generation
  {
    hide RestoreEach;
    if s.connected && c.neutralCue.Some? {
      RestoreEachGeneration(c, s, LAYERS, now);
    }
  }

  /** The cue is not turned away at the door. */
  predicate Welcome(c: Config, s: State, cue: Cue, now: real) {
    && s.connected && cue.generation == s.generation && Timely(cue, now)
    && cue.id !in s.active && (forall i | 0 <= i < |s.pending| :: s.pending[i].cue.id != cue.id)
    && |s.pending| < c.maxPending
  }

  /** In every run a cue bound to audio waits exactly when it is welcome and its moment is unknown or still to
      come, and starts at once exactly when its moment has come and it may start. */
  lemma SubmitBoundDecides(c: Config, generation: nat, calls: seq<Call>, cue: Cue, now: real)
    requires ValidConfig(c) && ProperCalls(c, calls) && ClockNeverGoesBack(calls)
    requires forall i :: 0 <= i < |calls| ==> calls[i].now <= now
    requires cue.binding.Some?
    ensures var s := After(c, generation, calls); var e := Expire(s, now); var a := Submit(c, s, cue, now);
      var m := FindMarker(e.markers, cue.binding.value.key);
      && (a.status == PendingAudio <==>
            Welcome(c, e, cue, now) && (m.None? || now < m.value.occurredAt + cue.binding.value.offset))
      && (a.status == PendingAudio ==>
            Pending(cue, e.sequence + 1, if m.Some? then Some(m.value.occurredAt + cue.binding.value.offset) else None) in a.state.pending)
      && (a.status == StatusStarted <==>
            Welcome(c, e, cue, now) && m.Some? && m.value.occurredAt + cue.binding.value.offset <= now && MayStart(c, e, cue, now))
  {
    hide After, Inv, Timing, AttemptStart, Expire, RestoreEach, MayStart, ValidConfig, FindMarker, Recovered;
    ReachableInv(c, generation, calls);
    RunTiming(c, generation, calls, now);
    var s := After(c, generation, calls);
    var e := Expire(s, now);
    ExpireKeeps(c, s, now);
    ExpireTiming(c, s, now);
    InvShape(c, e);
    var queued := e.(sequence := e.sequence + 1);
    LaterSequence(c, e, cue, now);
    AttemptDecides(c, queued, cue, now);
    AttemptIsNotPending(c, queued, cue, now);
    RestorePending(c, Admit(c, e, cue, now).state, now);
  }

  lemma LaterSequence(c: Config, s: State, cue: Cue, now: real)
    requires Timing(c, s, now)
    ensures Timing(c, s.(sequence := s.sequence + 1), now)
    ensures MayStart(c, s.(sequence := s.sequence + 1), cue, now) <==> MayStart(c, s, cue, now)
  {
    hide GlobalOk, LayersOk, CoolOk, Apart, Unopposed, StillCooling, HasRoom;
  }

  lemma AttemptIsNotPending(c: Config, s: State, cue: Cue, now: real)
    ensures AttemptStart(c, s, cue, now).status != PendingAudio
  {
    hide Begin, ConflictsOf, Blocked, WithinLimits, CoolingDown;
  }

  lemma {:induction false} RestoreEachPending(c: Config, s: State, layers: seq<Layer>, now: real)
    requires c.neutralCue.Some?
    ensures RestoreEach(c, s, layers, now).pending == s.pending
    decreases |layers|
  {
    hide ConflictsOf;
    if layers != [] {
      RestoreEachPending(c, RestoreLayer(c, s, layers[0], now), layers[1..], now);
    }
  }

  lemma RestorePending(c: Config, s: State, now: real)
    ensures Restore(c, s, now).pending == s.pending
  {
    hide RestoreEach;
    if s.connected && c.neutralCue.Some? {
      RestoreEachPending(c, s, LAYERS, now);
    }
  }

  // ---- Remembered markers ----

  lemma AttemptMarkers(c: Config, s: State, cue: Cue, now: real)
    ensures AttemptStart(c, s, cue, now).state.markers == s.markers
  {
    hide ConflictsOf, Blocked, WithinLimits, CoolingDown, Begin;
    LimitsFrame(c, s, cue.layer, now);
    BeginMarkers(c, s, cue, now);
    BeginMarkers(c, WithinLimits(c, s, cue.layer, now).state, cue, now);
  }

  lemma BeginMarkers(c: Config, s: State, cue: Cue, now: real)
    ensures Begin(c, s, cue, now).markers == s.markers
  {
    hide ConflictsOf, StopEach;
    Scheduler.StopEachFrame(s, ConflictsOf(s, cue), now, Preempted, Some(cue.id), ALL_LAYERS - {cue.layer});
  }

  lemma {:induction false} StartEachMarkers(c: Config, b: Batch, due: seq<Pending>, now: real)
    ensures StartEach(c, b, due, now).state.markers == b.state.markers
    decreases |due|
  {
    hide AttemptStart, HasPending, WithoutPending;
    if due != [] {
      AttemptMarkers(c, b.state.(pending := WithoutPending(b.state.pending, due[0].cue.id)), due[0].cue, now);
      StartEachMarkers(c, StartNext(c, b, due[0], now), due[1..], now);
    }
  }

  lemma {:induction false} RestoreEachMarkers(c: Config, s: State, layers: seq<Layer>, now: real)
    requires c.neutralCue.Some?
    ensures RestoreEach(c, s, layers, now).markers == s.markers
    decreases |layers|
  {
    hide ConflictsOf;
    if layers != [] {
      RestoreEachMarkers(c, RestoreLayer(c, s, layers[0], now), layers[1..], now);
    }
  }

  lemma {:induction false} WithoutMarkerIs(markers: seq<Marker>, key: AudioKey)
    ensures forall m :: m in WithoutMarker(markers, key) <==> m in markers && m.key != key
    ensures |WithoutMarker(markers, key)| <= |markers|
  {
    if markers != [] {
      WithoutMarkerIs(markers[1..], key);
    }
  }

  lemma {:induction false} FindsLast(markers: seq<Marker>, marker: Marker)
    requires forall i | 0 <= i < |markers| :: markers[i].key != marker.key
    ensures FindMarker(markers + [marker], marker.key) == Some(marker)
  {
    if markers != [] {
      assert (markers + [marker])[1..] == markers[1..] + [marker];
      FindsLast(markers[1..], marker);
    }
  }

  /** After the limit is applied the newest marker is still there, alone with its key. */
  lemma NewestKeeps(rest: seq<Marker>, marker: Marker, limit: nat)
    requires limit >= 1 && forall i | 0 <= i < |rest| :: rest[i].key != marker.key
    ensures var kept := Newest(rest + [marker], limit);
      && FindMarker(kept, marker.key) == Some(marker) && |kept| <= limit
      && (forall m | m in kept :: m == marker || m in rest)
      && (|rest| < limit ==> kept == rest + [marker])
  {
    var all := rest + [marker];
    var kept := Newest(all, limit);
    var front := kept[..|kept| - 1];
    assert kept == front + [marker];
    var d := |all| - |kept|;
    forall i | 0 <= i < |front| ensures front[i].key != marker.key && front[i] in rest {
      assert front[i] == rest[d + i];
    }
    FindsLast(front, marker);
  }

  /** A marker of the current generation is remembered for cues that come later: it replaces an older one with
      its key, and of the others only the oldest give way to the limit. */
  lemma MarkerIsRemembered(c: Config, s: State, marker: Marker, now: real)
    requires ValidConfig(c) && s.connected && marker.generation == s.generation
    ensures var t := NotifyAudio(c, s, marker, now).state;
      && FindMarker(t.markers, marker.key) == Some(marker) && |t.markers| <= c.maxMarkers
      && (forall m | m in t.markers :: m == marker || (m in s.markers && m.key != marker.key))
      && (|s.markers| < c.maxMarkers ==> forall m | m in s.markers && m.key != marker.key :: m in t.markers)
  {
    assert c.maxMarkers >= 1;
    hide ValidConfig, Expire, StartEach, RestoreEach, FindMarker, Newest, WithoutMarker, SortDue, DueIn, BoundAll;
    var e := Expire(s, now);
    ExpireMarkers(s, now);
    var n := Noted(c, e, marker);
    StartEachMarkers(c, Batch(n, []), SortDue(DueIn(n.pending, now)), now);
    var b := StartDue(c, n, now);
    if b.state.connected && c.neutralCue.Some? {
      RestoreEachMarkers(c, b.state, LAYERS, now);
    }
    var rest := WithoutMarker(s.markers, marker.key);
    WithoutMarkerIs(s.markers, marker.key);
    forall i | 0 <= i < |rest| ensures rest[i].key != marker.key {
      assert rest[i] in rest;
    }
    NewestKeeps(rest, marker, c.maxMarkers);
  }

  lemma ExpireMarkers(s: State, now: real)
    ensures Expire(s, now).markers == s.markers
  {
    hide StopEach, ExpiredIn, SortedActive, TimelyIn, CoolAt;
    Scheduler.StopEachFrame(s, ExpiredIn(SortedActive(s), now), now, LeaseExpired, None, ALL_LAYERS);
  }

  // ---- Answers ----

  /** Nothing at the door keeps the cue from being attempted. */
  predicate Admitted(s: State, cue: Cue, now: real) {
    && s.connected && cue.generation == s.generation && Timely(cue, now)
    && cue.id !in s.active && (forall i | 0 <= i < |s.pending| :: s.pending[i].cue.id != cue.id)
  }

  /** In every run a submission is answered with the reason that applies: for each rejection, exactly when. */
  lemma SubmitAnswers(c: Config, generation: nat, calls: seq<Call>, cue: Cue, now: real)
    requires ValidConfig(c) && ProperCalls(c, calls) && ClockNeverGoesBack(calls)
    requires forall i :: 0 <= i < |calls| ==> calls[i].now <= now
    ensures var s := After(c, generation, calls); var e := Expire(s, now); var status := Submit(c, s, cue, now).status;
      var known := e.connected && cue.generation == e.generation && Timely(cue, now);
      && (status == RejectedDisconnected <==> !e.connected)
      && (status == RejectedStaleGeneration <==> e.connected && cue.generation < e.generation)
      && (status == RejectedFutureGeneration <==> e.connected && cue.generation > e.generation)
      && (status == RejectedExpired <==> e.connected && cue.generation == e.generation && !Timely(cue, now))
      && (status == RejectedDuplicate <==> known && !Admitted(e, cue, now))
      && (status == RejectedQueueFull <==> Admitted(e, cue, now) && cue.binding.Some? && |e.pending| >= c.maxPending)
      && (cue.binding.None? ==>
            && (status == RejectedPriority <==> Admitted(e, cue, now) && !Unopposed(e.active, cue))
            && (status == RejectedCooldown <==>
                  Admitted(e, cue, now) && Unopposed(e.active, cue) && !cue.limitsExempt && !cue.neutral && StillCooling(e.log, cue, now))
            && (status == RejectedRateLimit <==>
                  && Admitted(e, cue, now) && Unopposed(e.active, cue) && !cue.limitsExempt && !cue.neutral
                  && !StillCooling(e.log, cue, now) && !HasRoom(c, e.log, cue.layer, now)))
  {
    hide After, Inv, Timing, AttemptStart, Expire, RestoreEach, ValidConfig, FindMarker, Recovered, Unopposed, StillCooling, HasRoom;
    ReachableInv(c, generation, calls);
    RunTiming(c, generation, calls, now);
    var s := After(c, generation, calls);
    var e := Expire(s, now);
    ExpireKeeps(c, s, now);
    ExpireTiming(c, s, now);
    InvShape(c, e);
    AttemptAnswers(c, e, cue, now);
    LaterSequence(c, e, cue, now);
    AttemptAnswers(c, e.(sequence := e.sequence + 1), cue, now);
  }

  lemma AttemptAnswers(c: Config, s: State, cue: Cue, now: real)
    requires Shape(s.active, s.byLayer) && Timing(c, s, now)
    ensures var status := AttemptStart(c, s, cue, now).status; var ready := Timely(cue, now) && cue.generation == s.generation && s.connected;
      && (ready ==> status in {StatusStarted, RejectedPriority, RejectedCooldown, RejectedRateLimit})
      && (ready ==> (status == RejectedPriority <==> !Unopposed(s.active, cue)))
      && (ready ==> (status == RejectedCooldown <==>
            Unopposed(s.active, cue) && !cue.limitsExempt && !cue.neutral && StillCooling(s.log, cue, now)))
      && (ready ==> (status == RejectedRateLimit <==>
            && Unopposed(s.active, cue) && !cue.limitsExempt && !cue.neutral
            && !StillCooling(s.log, cue, now) && !HasRoom(c, s.log, cue.layer, now)))
  {
    hide Shape, Timing, ConflictsOf, Blocked, WithinLimits, StillCooling, HasRoom, Unopposed, CoolingDown, Begin;
    BlockedIsOpposed(s, cue);
    LimitsAreLogged(c, s, cue.layer, now);
    TimingCools(c, s, now);
    CoolingIsLogged(s, cue, now);
  }

  // ---- The order in which leases make way ----

  /** The more important lease first, then the older one, then the smaller identifier. */
  predicate YieldsBefore(a: Lease, b: Lease) {
    || a.cue.priority > b.cue.priority
    || (a.cue.priority == b.cue.priority && a.startedAt < b.startedAt)
    || (a.cue.priority == b.cue.priority && a.startedAt == b.startedAt && a.cue.id <= b.cue.id)
  }

  ghost predicate InYieldOrder(leases: seq<Lease>) {
    forall i, j | 0 <= i < j < |leases| :: YieldsBefore(leases[i], leases[j])
  }

  lemma {:induction false} InsertMembers(x: Lease, s: seq<Lease>)
    ensures forall y :: y in InsertLease(x, s) <==> y == x || y in s
  {
    hide Ahead;
    if s != [] && !Ahead(x, s[0]) {
      InsertMembers(x, s[1..]);
    }
  }

  lemma {:induction false} InsertYields(x: Lease, s: seq<Lease>)
    requires InYieldOrder(s)
    ensures InYieldOrder(InsertLease(x, s))
  {
    if s == [] || Ahead(x, s[0]) {
      forall j | 0 <= j < |s| ensures YieldsBefore(x, s[j]) {
        assert j > 0 ==> YieldsBefore(s[0], s[j]);
      }
    } else {
      assert InYieldOrder(s[1..]) by { hide YieldsBefore; }
      InsertYields(x, s[1..]);
      InsertMembers(x, s[1..]);
      var r := InsertLease(x, s[1..]);
      forall j | 0 <= j < |r| ensures YieldsBefore(s[0], r[j]) {
        assert r[j] in r;
        if r[j] != x {
          var k :| 0 <= k < |s[1..]| && s[1..][k] == r[j];
          assert YieldsBefore(s[0], s[k + 1]);
        }
      }
    }
  }

  lemma {:induction false} SortYields(s: seq<Lease>)
    ensures InYieldOrder(SortLeases(s))
  {
    hide InsertLease;
    if s != [] {
      SortYields(s[1..]);
      InsertYields(s[0], SortLeases(s[1..]));
    }
  }

  /** What conflicts with a cue makes way in order of importance. */
  lemma ConflictsYieldInOrder(s: State, cue: Cue)
    ensures InYieldOrder(ConflictsOf(s, cue))
  {
    hide SortLeases, Conflicting, SortedActive;
    SortYields(Conflicting(SortedActive(s), cue));
  }
}
