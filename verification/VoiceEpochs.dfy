/** The recognition lane of the voice input as a transition system. Frames, recognizer events and the
    worker interleave at every `await`; speech that starts later supersedes what is being recognized.
    A frame and the first event it causes are one step, since nothing is awaited between them; further
    events of the same frame are steps of their own. An utterance is named by the epoch in which its
    speech started. */
module VoiceEpochs {
  import opened Text

  /** What the recognizer yields: a partial carries its revision, a final none. */
  datatype AsrEvent = AsrEvent(matches: bool, tooLong: bool, revision: Option<nat>)

  /** Where the worker and its recognition task are; `heard` are the recognizer's events so far, and
      `delivered` marks a task that had already handed over its final. */
  datatype Worker =
    | Waiting
    | Recognizing(epoch: nat, cancelled: bool, final: bool, revision: int, heard: seq<AsrEvent>)
    | Delivering(epoch: nat, cancelled: bool)
    | Finished
    | Broken(epoch: nat, byCancel: bool, delivered: bool)
    | Reporting
    | Gone

  /** A terminal report about an utterance, with the epoch that was current when it was made. */
  datatype Outcome = Outcome(epoch: nat, final: bool, current: nat)

  datatype Partial = Partial(epoch: nat, revision: nat, current: nat)

  /** `pending` are the detector events of the frame in hand, `true` for a start of speech; `speech` is
      whether the detector is inside an utterance. The last four fields are history. */
  datatype State = State(
    epoch: nat,
    speaking: Option<nat>,
    closed: bool,
    capturing: bool,
    speech: bool,
    pending: seq<bool>,
    queue: seq<nat>,
    worker: Worker,
    ended: set<nat>,
    outcomes: seq<Outcome>,
    partials: seq<Partial>,
    orphans: nat)

  function Init(): State {
    State(0, None, false, false, false, [], [], Waiting, {}, [], [], 0)
  }

  datatype Step =
    | StartStream
    | Frame(events: nat)
    | HandleEvent
    | FinishStream
    | Close
    | Take
    | Hear(event: AsrEvent)
    | RecognizerEnds
    | RecognizerRaises(byCancel: bool)
    | Delivered
    | DeliveryCancelled
    | Resume
    | Reported
    | WorkerCancelled
    | DrainQueue

  predicate Enabled(s: State, step: Step) {
    match step
    case StartStream => !s.closed && !s.capturing && s.pending == []
    case Frame(_) => !s.closed && s.capturing && s.pending == []
    case HandleEvent => s.pending != []
    case FinishStream => !s.closed && s.capturing && s.pending == []
    case Close => !s.closed
    case Take => s.worker.Waiting? && s.queue != []
    case Hear(_) => s.worker.Recognizing?
    case RecognizerEnds => s.worker.Recognizing?
    case RecognizerRaises(_) => s.worker.Recognizing?
    case Delivered => s.worker.Delivering?
    case DeliveryCancelled => s.worker.Delivering? && s.worker.cancelled
    case Resume => s.worker.Finished? || s.worker.Broken?
    case Reported => s.worker.Reporting?
    case WorkerCancelled => s.closed && (s.worker.Waiting? || s.worker.Reporting? || s.worker.Finished?)
    case DrainQueue => s.closed && s.worker.Gone?
  }

  /** The events of a detector that starts inside or outside speech: they alternate. */
  function Alternate(speech: bool, n: nat): seq<bool>
    decreases n
  {
    if n == 0 then [] else [!speech] + Alternate(!speech, n - 1)
  }

  function Toggled(speech: bool, n: nat): bool
    decreases n
  {
    if n == 0 then speech else Toggled(!speech, n - 1)
  }

  /** `task.cancel()` on the running recognition, if there is one. */
  function Cancelled(w: Worker): Worker {
    match w
    case Recognizing(e, _, final, revision, heard) => Recognizing(e, true, final, revision, heard)
    case Delivering(e, _) => Delivering(e, true)
    case _ => w
  }

  function SpeechStarts(s: State): State {
    s.(epoch := s.epoch + 1, speaking := Some(s.epoch + 1), worker := Cancelled(s.worker))
  }

  /** `_take_utterance_epoch` and `_enqueue_utterance`; an end without its start is an error. */
  function SpeechEnds(max: nat, s: State): State {
    match s.speaking
    case None => s.(orphans := s.orphans + 1, pending := [])
    case Some(e) =>
      var s1 := s.(speaking := None, ended := s.ended + {e});
      if |s.queue| < max then s1.(queue := s.queue + [e])
      else s1.(outcomes := s.outcomes + [Outcome(e, false, s.epoch)])
  }

  /** What the detector reports for one frame. */
  function Detected(s: State, n: nat): State {
    s.(pending := Alternate(s.speech, n), speech := Toggled(s.speech, n))
  }

  /** One turn of the loop over the events of a frame. */
  function Handled(max: nat, s: State): State
    requires s.pending != []
  {
    var s1 := s.(pending := s.pending[1..]);
    if s.pending[0] then SpeechStarts(s1) else SpeechEnds(max, s1)
  }

  /** One turn of the `async for` in `_recognize`. */
  function Heard(s: State, event: AsrEvent): State
    requires s.worker.Recognizing?
  {
    var w := s.worker;
    if !event.matches then s.(worker := Broken(w.epoch, false, false))
    else if w.epoch != s.epoch then s.(worker := Finished)
    else if w.final || event.tooLong then s.(worker := Broken(w.epoch, false, false))
    else
      match event.revision
      case None => s.(worker := w.(final := true, heard := w.heard + [event]))
      case Some(r) =>
        if r <= w.revision then s.(worker := Broken(w.epoch, false, false))
        else s.(worker := w.(revision := r, heard := w.heard + [event]), partials := s.partials + [Partial(w.epoch, r, s.epoch)])
  }

  /** After the recognizer's last event. */
  function Concluded(s: State): State
    requires s.worker.Recognizing?
  {
    var e := s.worker.epoch;
    if !s.worker.final then s.(worker := Broken(e, false, false))
    else if e == s.epoch
    then s.(worker := Delivering(e, s.worker.cancelled), outcomes := s.outcomes + [Outcome(e, true, s.epoch)])
    else s.(worker := Finished)
  }

  /** The worker sees how its recognition ended. */
  function Resumed(s: State): State {
    match s.worker
    case Broken(e, byCancel, _) =>
      if byCancel && s.closed then s.(worker := Gone)
      else if e == s.epoch then s.(worker := Reporting, outcomes := s.outcomes + [Outcome(e, false, s.epoch)])
      else s.(worker := Waiting)
    case _ => s.(worker := Waiting)
  }

  function Next(max: nat, s: State, step: Step): State
    requires Enabled(s, step)
  {
    match step
    case StartStream => s.(capturing := true, speech := false)
    case Frame(n) =>
      var s1 := Detected(s, n);
      if s1.pending == [] then s1 else Handled(max, s1)
    case HandleEvent => Handled(max, s)
    case FinishStream =>
      var s1 := s.(capturing := false, speech := false);
      if s.speech then SpeechEnds(max, s1) else s1
    case Close => s.(closed := true, capturing := false, speaking := None, worker := Cancelled(s.worker))
    case Take =>
      var s1 := s.(queue := s.queue[1..]);
      if s.queue[0] == s.epoch then s1.(worker := Recognizing(s.queue[0], false, false, -1, [])) else s1
    case Hear(event) => Heard(s, event)
    case RecognizerEnds => Concluded(s)
    case RecognizerRaises(byCancel) => s.(worker := Broken(s.worker.epoch, byCancel, false))
    case Delivered => s.(worker := Finished)
    case DeliveryCancelled => s.(worker := Broken(s.worker.epoch, true, true))
    case Resume => Resumed(s)
    case Reported => s.(worker := Waiting)
    case WorkerCancelled => s.(worker := Gone)
    case DrainQueue => s.(queue := [])
  }

  function Execute(max: nat, s: State, steps: seq<Step>): Option<State>
    decreases |steps|
  {
    if steps == [] then Some(s)
    else if Enabled(s, steps[0]) then Execute(max, Next(max, s, steps[0]), steps[1..])
    else None
  }

  // ---- What every step keeps ----

  /** The utterance the worker still owes an outcome. */
  function Job(w: Worker): seq<nat> {
    match w
    case Recognizing(e, _, _, _, _) => [e]
    case Broken(e, _, delivered) => if delivered then [] else [e]
    case _ => []
  }

  /** Everything that still awaits an outcome, oldest first. */
  function Live(w: Worker, queue: seq<nat>): seq<nat> {
    Job(w) + queue
  }

  predicate Increasing(s: seq<nat>) {
    forall i, j | 0 <= i < j < |s| :: s[i] < s[j]
  }

  predicate Settled(outcomes: seq<Outcome>, e: nat) {
    exists i | 0 <= i < |outcomes| :: outcomes[i].epoch == e
  }

  /** No utterance has two outcomes, finals came in the order of speech while theirs was the latest, and
      what is still live comes after them. */
  predicate OutcomesOk(outcomes: seq<Outcome>, live: seq<nat>, ended: set<nat>) {
    && (forall i | 0 <= i < |outcomes| :: outcomes[i].epoch in ended && outcomes[i].epoch !in live)
    && (forall i, j | 0 <= i < j < |outcomes| :: outcomes[i].epoch != outcomes[j].epoch)
    && (forall i, j | 0 <= i < j < |outcomes| && outcomes[i].final && outcomes[j].final ::
          outcomes[i].epoch < outcomes[j].epoch)
    && (forall i, j | 0 <= i < |outcomes| && outcomes[i].final && 0 <= j < |live| :: outcomes[i].epoch < live[j])
    && (forall i | 0 <= i < |outcomes| && outcomes[i].final :: outcomes[i].current == outcomes[i].epoch)
  }

  predicate LiveOk(live: seq<nat>, ended: set<nat>, epoch: nat) {
    && Increasing(live)
    && (forall i | 0 <= i < |live| :: live[i] in ended)
    && (forall e | e in ended :: e <= epoch)
  }

  predicate Accounted(live: seq<nat>, ended: set<nat>, outcomes: seq<Outcome>, epoch: nat, closed: bool) {
    forall e | e in ended :: e in live || Settled(outcomes, e) || e < epoch || closed
  }

  predicate Core(live: seq<nat>, ended: set<nat>, outcomes: seq<Outcome>, epoch: nat, closed: bool) {
    LiveOk(live, ended, epoch) && OutcomesOk(outcomes, live, ended) && Accounted(live, ended, outcomes, epoch, closed)
  }

  lemma CoreLater(live: seq<nat>, ended: set<nat>, outcomes: seq<Outcome>, epoch: nat, closed: bool, epoch': nat, closed': bool)
    requires Core(live, ended, outcomes, epoch, closed) && epoch <= epoch' && (closed ==> closed')
    ensures Core(live, ended, outcomes, epoch', closed')
  {
    hide Settled;
  }

  lemma CoreDrops(live: seq<nat>, rest: seq<nat>, ended: set<nat>, outcomes: seq<Outcome>, epoch: nat, closed: bool)
    requires Core(live, ended, outcomes, epoch, closed)
    requires live != [] && rest == live[1..] && (live[0] < epoch || closed)
    ensures Core(rest, ended, outcomes, epoch, closed)
  {
    hide Settled;
  }

  lemma CoreClears(live: seq<nat>, ended: set<nat>, outcomes: seq<Outcome>, epoch: nat)
    requires Core(live, ended, outcomes, epoch, true)
    ensures Core([], ended, outcomes, epoch, true)
  {
    hide Settled;
  }

  lemma SettledMore(outcomes: seq<Outcome>, o: Outcome)
    ensures Settled(outcomes + [o], o.epoch)
    ensures forall e | Settled(outcomes, e) :: Settled(outcomes + [o], e)
  {
    var more := outcomes + [o];
    assert more[|outcomes|] == o;
    forall e | Settled(outcomes, e) ensures Settled(more, e) {
      var i :| 0 <= i < |outcomes| && outcomes[i].epoch == e;
      assert more[i] == outcomes[i];
    }
  }

  lemma CoreSettles(live: seq<nat>, rest: seq<nat>, ended: set<nat>, outcomes: seq<Outcome>, epoch: nat, closed: bool, final: bool)
    requires Core(live, ended, outcomes, epoch, closed)
    requires live != [] && rest == live[1..] && (final ==> live[0] == epoch)
    ensures Core(rest, ended, outcomes + [Outcome(live[0], final, epoch)], epoch, closed)
  {
    var o := Outcome(live[0], final, epoch);
    SettledMore(outcomes, o);
    assert OutcomesOk(outcomes + [o], rest, ended) by {
      hide Settled, Accounted;
    }
    hide Settled, OutcomesOk;
  }

  lemma CoreAdds(live: seq<nat>, ended: set<nat>, outcomes: seq<Outcome>, epoch: nat, closed: bool)
    requires Core(live, ended, outcomes, epoch, closed) && epoch !in ended
    ensures Core(live + [epoch], ended + {epoch}, outcomes, epoch, closed)
  {
    hide Settled;
  }

  lemma CoreRefuses(live: seq<nat>, ended: set<nat>, outcomes: seq<Outcome>, epoch: nat, closed: bool)
    requires Core(live, ended, outcomes, epoch, closed) && epoch !in ended
    ensures Core(live, ended + {epoch}, outcomes + [Outcome(epoch, false, epoch)], epoch, closed)
  {
    var o := Outcome(epoch, false, epoch);
    SettledMore(outcomes, o);
    assert OutcomesOk(outcomes + [o], live, ended + {epoch}) by {
      hide Settled, Accounted;
    }
    hide Settled, OutcomesOk;
  }

  /** The speech in progress is the latest, and its utterance has not ended. */
  predicate SpeakingOk(speaking: Option<nat>, epoch: nat, ended: set<nat>) {
    speaking.Some? ==> speaking.value == epoch && epoch !in ended
  }

  /** The task of superseded speech has been cancelled, and only such a task or one of a closed input has. */
  predicate WorkerOk(w: Worker, epoch: nat, closed: bool) {
    match w
    case Delivering(e, cancelled) => e <= epoch && (cancelled ==> closed || e < epoch) && (e < epoch ==> cancelled)
    case Broken(e, byCancel, delivered) => delivered ==> byCancel && (closed || e < epoch)
    case Recognizing(e, cancelled, _, _, _) => e <= epoch && (cancelled ==> closed || e < epoch) && (e < epoch ==> cancelled)
    case _ => true
  }

  /** Until it is closed, every end the detector reports finds the epoch of its start. */
  predicate EventsOk(s: State) {
    !s.closed ==>
      && s.orphans == 0
      && s.pending == Alternate(s.speaking.Some?, |s.pending|)
      && s.speech == Toggled(s.speaking.Some?, |s.pending|)
      && (!s.capturing ==> s.pending == [] && !s.speech)
  }

  /** Partials came while theirs was the latest speech, in order of speech and then of revision. */
  predicate PartialsOk(partials: seq<Partial>, w: Worker, queue: seq<nat>, ended: set<nat>) {
    && (forall i | 0 <= i < |partials| :: partials[i].current == partials[i].epoch && partials[i].epoch in ended)
    && (forall i, j | 0 <= i < j < |partials| :: Earlier(partials[i], partials[j]))
    && (forall i, j | 0 <= i < |partials| && 0 <= j < |queue| :: partials[i].epoch < queue[j])
    && (w.Recognizing? ==> forall i | 0 <= i < |partials| :: Reached(partials[i], w.epoch, w.revision))
  }

  predicate Reached(p: Partial, epoch: nat, revision: int) {
    p.epoch < epoch || (p.epoch == epoch && p.revision <= revision)
  }

  predicate Earlier(p: Partial, q: Partial) {
    p.epoch < q.epoch || (p.epoch == q.epoch && p.revision < q.revision)
  }

  /** The revisions of the partials among some recognizer events. */
  function Revisions(heard: seq<AsrEvent>): seq<nat> {
    if heard == [] then []
    else
      var last := heard[|heard| - 1];
      Revisions(heard[..|heard| - 1]) + if last.revision.Some? then [last.revision.value] else []
  }

  /** The revisions shown for one utterance. */
  function ShownFor(partials: seq<Partial>, epoch: nat): seq<nat> {
    if partials == [] then []
    else
      var last := partials[|partials| - 1];
      ShownFor(partials[..|partials| - 1], epoch) + if last.epoch == epoch then [last.revision] else []
  }

  predicate HasFinal(heard: seq<AsrEvent>) {
    exists i | 0 <= i < |heard| :: heard[i].revision.None?
  }

  /** The recognition in progress remembers whether a final came and the latest revision, and every partial it
      heard was shown. */
  predicate HeardOk(w: Worker, partials: seq<Partial>) {
    w.Recognizing? ==>
      && (w.final <==> HasFinal(w.heard))
      && Revisions(w.heard) == ShownFor(partials, w.epoch)
      && w.revision == (if Revisions(w.heard) == [] then -1 else Revisions(w.heard)[|Revisions(w.heard)| - 1])
  }

  predicate Inv(max: nat, s: State) {
    && Core(Live(s.worker, s.queue), s.ended, s.outcomes, s.epoch, s.closed)
    && SpeakingOk(s.speaking, s.epoch, s.ended) && WorkerOk(s.worker, s.epoch, s.closed)
    && PartialsOk(s.partials, s.worker, s.queue, s.ended)
    && HeardOk(s.worker, s.partials)
    && EventsOk(s) && |s.queue| <= max
  }

  lemma InitInv(max: nat)
    ensures Inv(max, Init())
  {
  }

  lemma CancelledSame(w: Worker)
    ensures Job(Cancelled(w)) == Job(w)
    ensures Cancelled(w).Recognizing? == w.Recognizing?
    ensures w.Recognizing? ==> Cancelled(w).epoch == w.epoch && Cancelled(w).revision == w.revision
    ensures forall partials :: HeardOk(w, partials) ==> HeardOk(Cancelled(w), partials)
  {
    hide Revisions, ShownFor, HasFinal;
  }

  lemma LiveEnded(live: seq<nat>, ended: set<nat>, outcomes: seq<Outcome>, epoch: nat, closed: bool)
    requires Core(live, ended, outcomes, epoch, closed)
    ensures epoch + 1 !in ended
    ensures forall e | e in ended :: e <= epoch
    ensures forall i | 0 <= i < |live| :: live[i] <= epoch
  {
    hide Settled, OutcomesOk, Accounted;
  }

  lemma FrameKeeps(max: nat, s: State, n: nat)
    requires Inv(max, s) && Enabled(s, Frame(n))
    ensures Inv(max, Next(max, s, Frame(n)))
  {
    DetectedKeeps(max, s, n);
    hide Inv, Handled, Detected;
    if Detected(s, n).pending != [] {
      HandledKeeps(max, Detected(s, n));
    }
  }

  lemma DetectedKeeps(max: nat, s: State, n: nat)
    requires Inv(max, s) && Enabled(s, Frame(n))
    ensures Inv(max, Detected(s, n))
  {
    hide Core, PartialsOk, WorkerOk;
    assert s.speaking.Some? == s.speech;
    AlternateLength(s.speech, n);
  }

  lemma HandledKeeps(max: nat, s: State)
    requires Inv(max, s) && s.pending != []
    ensures Inv(max, Handled(max, s))
  {
    hide Inv, Handled;
    if s.pending[0] {
      StartKeeps(max, s);
    } else {
      EndKeeps(max, s);
    }
  }

  lemma {:induction false} AlternateLength(speech: bool, n: nat)
    ensures |Alternate(speech, n)| == n
    decreases n
  {
    if n > 0 {
      AlternateLength(!speech, n - 1);
    }
  }

  /** Handling one event moves on in the alternation. */
  lemma AlternateTail(speech: bool, pending: seq<bool>)
    requires pending != [] && pending == Alternate(speech, |pending|)
    ensures pending[0] == !speech
    ensures pending[1..] == Alternate(!speech, |pending[1..]|)
    ensures Toggled(speech, |pending|) == Toggled(!speech, |pending[1..]|)
  {
    var n := |pending|;
    assert Alternate(speech, n) == [!speech] + Alternate(!speech, n - 1);
  }

  lemma StartKeeps(max: nat, s: State)
    requires Inv(max, s) && s.pending != [] && s.pending[0]
    ensures Inv(max, Handled(max, s))
  {
    hide Core, PartialsOk, Alternate, Toggled;
    CoreLater(Live(s.worker, s.queue), s.ended, s.outcomes, s.epoch, s.closed, s.epoch + 1, s.closed);
    LiveEnded(Live(s.worker, s.queue), s.ended, s.outcomes, s.epoch, s.closed);
    CancelledSame(s.worker);
    PartialsSame(s.partials, s.worker, Cancelled(s.worker), s.queue, s.ended);
    if !s.closed {
      AlternateTail(s.speaking.Some?, s.pending);
    }
  }

  lemma PartialsSame(partials: seq<Partial>, w: Worker, v: Worker, queue: seq<nat>, ended: set<nat>)
    requires PartialsOk(partials, w, queue, ended)
    requires v.Recognizing? ==> w.Recognizing? && v.epoch == w.epoch && v.revision == w.revision
    ensures PartialsOk(partials, v, queue, ended)
  {
    hide Reached, Earlier;
  }

  lemma PartialsEnd(partials: seq<Partial>, w: Worker, queue: seq<nat>, ended: set<nat>, e: nat)
    requires PartialsOk(partials, w, queue, ended) && e !in ended && forall x | x in ended :: x <= e
    ensures PartialsOk(partials, w, queue + [e], ended + {e}) && PartialsOk(partials, w, queue, ended + {e})
  {
    hide Reached, Earlier;
  }

  lemma EndKeepsCore(max: nat, s: State)
    requires Core(Live(s.worker, s.queue), s.ended, s.outcomes, s.epoch, s.closed)
    requires PartialsOk(s.partials, s.worker, s.queue, s.ended) && WorkerOk(s.worker, s.epoch, s.closed)
    requires SpeakingOk(s.speaking, s.epoch, s.ended) && |s.queue| <= max
    ensures var t := SpeechEnds(max, s);
      && Core(Live(t.worker, t.queue), t.ended, t.outcomes, t.epoch, t.closed)
      && PartialsOk(t.partials, t.worker, t.queue, t.ended) && WorkerOk(t.worker, t.epoch, t.closed)
      && SpeakingOk(t.speaking, t.epoch, t.ended) && |t.queue| <= max
  {
    hide Core, PartialsOk, WorkerOk, Job;
    var live := Live(s.worker, s.queue);
    if s.speaking.Some? {
      LiveEnded(live, s.ended, s.outcomes, s.epoch, s.closed);
      PartialsEnd(s.partials, s.worker, s.queue, s.ended, s.epoch);
      if |s.queue| < max {
        CoreAdds(live, s.ended, s.outcomes, s.epoch, s.closed);
        assert Live(s.worker, s.queue + [s.epoch]) == live + [s.epoch];
      } else {
        CoreRefuses(live, s.ended, s.outcomes, s.epoch, s.closed);
      }
    }
  }

  lemma EndKeeps(max: nat, s: State)
    requires Inv(max, s) && s.pending != [] && !s.pending[0]
    ensures Inv(max, Handled(max, s))
  {
    hide Core, PartialsOk, Alternate, Toggled, WorkerOk;
    EndKeepsCore(max, s.(pending := s.pending[1..]));
    if !s.closed {
      AlternateTail(s.speaking.Some?, s.pending);
    }
  }

  lemma FinishKeeps(max: nat, s: State)
    requires Inv(max, s) && Enabled(s, FinishStream)
    ensures Inv(max, Next(max, s, FinishStream))
  {
    hide Core, PartialsOk, WorkerOk;
    EndKeepsCore(max, s.(capturing := false, speech := false));
  }

  lemma CloseKeeps(max: nat, s: State)
    requires Inv(max, s) && Enabled(s, Close)
    ensures Inv(max, Next(max, s, Close))
  {
    hide Core, PartialsOk, Alternate, Toggled;
    CoreLater(Live(s.worker, s.queue), s.ended, s.outcomes, s.epoch, s.closed, s.epoch, true);
    CancelledSame(s.worker);
    PartialsSame(s.partials, s.worker, Cancelled(s.worker), s.queue, s.ended);
  }

  lemma TakeKeeps(max: nat, s: State)
    requires Inv(max, s) && Enabled(s, Take)
    ensures Inv(max, Next(max, s, Take))
  {
    hide Core, EventsOk, PartialsOk, Live, HeardOk;
    var t := Next(max, s, Take);
    NothingHeard(s.partials, s.queue, s.ended);
    SameEvents(s, t);
    TakenLive(s);
    TakenPartials(s.partials, s.queue, s.ended);
    LiveEnded(s.queue, s.ended, s.outcomes, s.epoch, s.closed);
    if s.queue[0] != s.epoch {
      CoreDrops(s.queue, s.queue[1..], s.ended, s.outcomes, s.epoch, s.closed);
    }
  }

  lemma TakenLive(s: State)
    requires s.worker.Waiting? && s.queue != []
    ensures Live(s.worker, s.queue) == s.queue && Live(Waiting, s.queue[1..]) == s.queue[1..]
    ensures Live(Recognizing(s.queue[0], false, false, -1, []), s.queue[1..]) == s.queue
  {
    assert [s.queue[0]] + s.queue[1..] == s.queue;
  }

  lemma NothingHeard(partials: seq<Partial>, queue: seq<nat>, ended: set<nat>)
    requires PartialsOk(partials, Waiting, queue, ended) && queue != []
    ensures HeardOk(Recognizing(queue[0], false, false, -1, []), partials) && HeardOk(Waiting, partials)
  {
    NoneShown(partials, queue[0]);
  }

  lemma TakenPartials(partials: seq<Partial>, queue: seq<nat>, ended: set<nat>)
    requires PartialsOk(partials, Waiting, queue, ended) && queue != []
    ensures PartialsOk(partials, Waiting, queue[1..], ended)
    ensures PartialsOk(partials, Recognizing(queue[0], false, false, -1, []), queue[1..], ended)
  {
    hide Earlier;
    forall i | 0 <= i < |partials| ensures Reached(partials[i], queue[0], -1) {
      assert partials[i].epoch < queue[0];
    }
  }

  lemma SameEvents(s: State, t: State)
    requires EventsOk(s) && t.speaking == s.speaking && t.pending == s.pending && t.speech == s.speech
    requires t.orphans == s.orphans && t.capturing == s.capturing && t.closed == s.closed
    ensures EventsOk(t)
  {
    hide Alternate, Toggled;
  }

  /** The job leaves the worker without an outcome. */
  lemma JobDrops(s: State, t: State)
    requires Core(Live(s.worker, s.queue), s.ended, s.outcomes, s.epoch, s.closed)
    requires t == s.(worker := t.worker) && Job(t.worker) == []
    requires Job(s.worker) != [] ==> Job(s.worker)[0] < s.epoch || s.closed
    ensures Core(Live(t.worker, t.queue), t.ended, t.outcomes, t.epoch, t.closed)
  {
    hide Core;
    var live := Live(s.worker, s.queue);
    assert [] + s.queue == s.queue;
    if Job(s.worker) != [] {
      assert live[1..] == s.queue;
      CoreDrops(live, s.queue, s.ended, s.outcomes, s.epoch, s.closed);
    }
  }

  lemma JobSettles(s: State, t: State, final: bool)
    requires Core(Live(s.worker, s.queue), s.ended, s.outcomes, s.epoch, s.closed)
    requires Job(s.worker) == [s.epoch] && Job(t.worker) == []
    requires t == s.(worker := t.worker, outcomes := s.outcomes + [Outcome(s.epoch, final, s.epoch)])
    ensures Core(Live(t.worker, t.queue), t.ended, t.outcomes, t.epoch, t.closed)
  {
    hide Core;
    var live := Live(s.worker, s.queue);
    assert live[1..] == s.queue && [] + s.queue == s.queue;
    CoreSettles(live, s.queue, s.ended, s.outcomes, s.epoch, s.closed, final);
  }

  lemma HearKeeps(max: nat, s: State, event: AsrEvent)
    requires Inv(max, s) && Enabled(s, Hear(event))
    ensures Inv(max, Next(max, s, Hear(event)))
  {
    hide Core, EventsOk, PartialsOk, HeardOk;
    var t := Next(max, s, Hear(event));
    SameEvents(s, t);
    HeardKeeps(s, event);
    if t.worker.Finished? {
      JobDrops(s, t);
    }
    if t.partials != s.partials {
      JobIsEnded(s);
      PartialsGrow(s.partials, s.worker, t.worker.revision, s.queue, s.ended);
      PartialsSame(t.partials, s.worker.(revision := t.worker.revision), t.worker, s.queue, s.ended);
    } else {
      PartialsSame(s.partials, s.worker, t.worker, s.queue, s.ended);
    }
  }

  lemma HeardKeeps(s: State, event: AsrEvent)
    requires s.worker.Recognizing? && HeardOk(s.worker, s.partials)
    ensures HeardOk(Heard(s, event).worker, Heard(s, event).partials)
  {
    hide Revisions, ShownFor, HasFinal;
    var w := s.worker;
    RevisionsMore(w.heard, event);
    if event.revision.Some? {
      ShownMore(s.partials, Partial(w.epoch, event.revision.value, s.epoch), w.epoch);
    }
  }

  lemma JobIsEnded(s: State)
    requires Core(Live(s.worker, s.queue), s.ended, s.outcomes, s.epoch, s.closed) && Job(s.worker) != []
    ensures Job(s.worker)[0] in s.ended
    ensures forall j | 0 <= j < |s.queue| :: Job(s.worker)[0] < s.queue[j]
  {
    hide Settled, OutcomesOk, Accounted;
    var live := Live(s.worker, s.queue);
    assert live[0] == Job(s.worker)[0];
    forall j | 0 <= j < |s.queue| ensures Job(s.worker)[0] < s.queue[j] {
      assert live[0] < live[1 + j];
    }
  }

  lemma PartialsGrow(partials: seq<Partial>, w: Worker, revision: int, queue: seq<nat>, ended: set<nat>)
    requires w.Recognizing? && PartialsOk(partials, w, queue, ended) && w.revision < revision && 0 <= revision
    requires w.epoch in ended && forall j | 0 <= j < |queue| :: w.epoch < queue[j]
    ensures PartialsOk(partials + [Partial(w.epoch, revision, w.epoch)], w.(revision := revision), queue, ended)
  {
    var more := partials + [Partial(w.epoch, revision, w.epoch)];
    forall i, j | 0 <= i < j < |more| ensures Earlier(more[i], more[j]) {
      if j < |partials| {
        assert Earlier(partials[i], partials[j]);
      } else {
        assert Reached(partials[i], w.epoch, w.revision);
      }
    }
  }

  lemma WorkerKeeps(max: nat, s: State, step: Step)
    requires Inv(max, s) && Enabled(s, step)
    requires step.RecognizerEnds? || step.RecognizerRaises? || step.Delivered? || step.DeliveryCancelled?
      || step.Resume? || step.Reported? || step.WorkerCancelled?
    ensures Inv(max, Next(max, s, step))
  {
    hide Core, EventsOk, PartialsOk, Revisions, ShownFor, HasFinal;
    var t := Next(max, s, step);
    SameEvents(s, t);
    PartialsSame(s.partials, s.worker, t.worker, s.queue, s.ended);
    LiveEnded(Live(s.worker, s.queue), s.ended, s.outcomes, s.epoch, s.closed);
    assert Job(s.worker) != [] ==> Live(s.worker, s.queue)[0] == Job(s.worker)[0];
    if t.outcomes != s.outcomes {
      JobSettles(s, t, step.RecognizerEnds?);
    } else if Job(t.worker) == [] {
      JobDrops(s, t);
    }
  }

  lemma DrainKeeps(max: nat, s: State)
    requires Inv(max, s) && Enabled(s, DrainQueue)
    ensures Inv(max, Next(max, s, DrainQueue))
  {
    hide Core, EventsOk;
    var t := Next(max, s, DrainQueue);
    SameEvents(s, t);
    CoreClears(Live(s.worker, s.queue), s.ended, s.outcomes, s.epoch);
    assert Live(t.worker, t.queue) == [];
  }

  lemma NextKeeps(max: nat, s: State, step: Step)
    requires Inv(max, s) && Enabled(s, step)
    ensures Inv(max, Next(max, s, step))
  {
    match step
    case StartStream => hide Core, PartialsOk, WorkerOk;
    case Frame(n) => FrameKeeps(max, s, n);
    case HandleEvent => HandledKeeps(max, s);
    case FinishStream => FinishKeeps(max, s);
    case Close => CloseKeeps(max, s);
    case Take => TakeKeeps(max, s);
    case Hear(event) => HearKeeps(max, s, event);
    case DrainQueue => DrainKeeps(max, s);
    case _ => WorkerKeeps(max, s, step);
  }

  lemma RevisionsMore(heard: seq<AsrEvent>, event: AsrEvent)
    ensures Revisions(heard + [event]) == Revisions(heard) + if event.revision.Some? then [event.revision.value] else []
    ensures HasFinal(heard + [event]) <==> HasFinal(heard) || event.revision.None?
  {
    var all := heard + [event];
    assert all[..|heard|] == heard && all[|heard|] == event;
    if HasFinal(heard) {
      var i :| 0 <= i < |heard| && heard[i].revision.None?;
      assert all[i] == heard[i];
    }
  }

  lemma ShownMore(partials: seq<Partial>, p: Partial, epoch: nat)
    ensures ShownFor(partials + [p], epoch) == ShownFor(partials, epoch) + if p.epoch == epoch then [p.revision] else []
  {
    assert (partials + [p])[..|partials|] == partials;
  }

  lemma {:induction false} NoneShown(partials: seq<Partial>, epoch: nat)
    requires forall i | 0 <= i < |partials| :: partials[i].epoch < epoch
    ensures ShownFor(partials, epoch) == []
  {
    if partials != [] {
      NoneShown(partials[..|partials| - 1], epoch);
    }
  }

  lemma {:induction false} RunKeeps(max: nat, s: State, steps: seq<Step>)
    requires Inv(max, s) && Execute(max, s, steps).Some?
    ensures Inv(max, Execute(max, s, steps).value)
    decreases |steps|
  {
    hide Inv, Next, Enabled;
    if steps != [] {
      NextKeeps(max, s, steps[0]);
      RunKeeps(max, Next(max, s, steps[0]), steps[1..]);
    }
  }

  // ---- Whole runs ----

  /** Finals are delivered only while no newer speech has started, and in strictly increasing order. */
  lemma FinalsAreCurrent(max: nat, steps: seq<Step>)
    requires Execute(max, Init(), steps).Some?
    ensures var out := Execute(max, Init(), steps).value.outcomes;
      && (forall i | 0 <= i < |out| && out[i].final :: out[i].epoch == out[i].current)
      && (forall i, j | 0 <= i < j < |out| && out[i].final && out[j].final :: out[i].epoch < out[j].epoch)
  {
    hide Execute, EventsOk, PartialsOk, LiveOk, Accounted;
    InitInv(max);
    RunKeeps(max, Init(), steps);
  }

  /** An utterance never gets two outcomes; it gets none only while it is queued or being recognized, or
      because newer speech or the end of the input took its place. */
  lemma OneOutcomeEach(max: nat, steps: seq<Step>)
    requires Execute(max, Init(), steps).Some?
    ensures var s := Execute(max, Init(), steps).value;
      && (forall i, j | 0 <= i < j < |s.outcomes| :: s.outcomes[i].epoch != s.outcomes[j].epoch)
      && (forall i | 0 <= i < |s.outcomes| :: s.outcomes[i].epoch in s.ended)
      && (forall e | e in s.ended ::
            e in Live(s.worker, s.queue) || Settled(s.outcomes, e) || e < s.epoch || s.closed)
  {
    hide Execute, EventsOk, PartialsOk, LiveOk, Settled;
    InitInv(max);
    RunKeeps(max, Init(), steps);
  }

  lemma QueueIsBounded(max: nat, steps: seq<Step>)
    requires Execute(max, Init(), steps).Some?
    ensures |Execute(max, Init(), steps).value.queue| <= max
  {
    hide Execute, PartialsOk, Core, EventsOk;
    InitInv(max);
    RunKeeps(max, Init(), steps);
  }

  // ---- Ends without their epoch ----

  /** At `close` the start of speech has been handled and its end, for the same frame, has not. */
  predicate BetweenStartAndEnd(s: State) {
    s.speaking.Some? && s.pending != []
  }

  /** After `close`: either the next event is an end whose epoch was thrown away, or every end left will
      find its epoch and `orphans` is final. */
  predicate Fate(s: State, doomed: bool, orphans: nat) {
    && s.closed && s.orphans == orphans
    && if doomed then s.speaking.None? && s.pending != [] && !s.pending[0]
       else s.pending == Alternate(s.speaking.Some?, |s.pending|)
  }

  lemma AtClose(max: nat, s: State)
    requires Inv(max, s) && !s.closed
    ensures Fate(Next(max, s, Close), BetweenStartAndEnd(s), 0)
  {
    hide Core, PartialsOk, WorkerOk, Toggled;
    if s.pending != [] {
      AlternateTail(s.speaking.Some?, s.pending);
    }
  }

  lemma FateKept(max: nat, s: State, step: Step, doomed: bool, orphans: nat)
    requires Fate(s, doomed, orphans) && Enabled(s, step)
    ensures var fallen := doomed && step.HandleEvent?;
      Fate(Next(max, s, step), doomed && !fallen, orphans + (if fallen then 1 else 0))
  {
    hide Alternate;
    if step.HandleEvent? && !doomed {
      AlternateTail(s.speaking.Some?, s.pending);
    } else if step.HandleEvent? {
      NoneAlternate();
    }
  }

  lemma NoneAlternate()
    ensures Alternate(false, 0) == []
  {
  }

  lemma {:induction false} OrphansByFate(max: nat, s: State, steps: seq<Step>, doomed: bool, orphans: nat)
    requires Fate(s, doomed, orphans) && Execute(max, s, steps).Some?
    ensures Execute(max, s, steps).value.orphans == orphans + if doomed && HandleEvent in steps then 1 else 0
    decreases |steps|
  {
    hide Enabled, Next, Fate;
    if steps == [] {
      FateCounts(s, doomed, orphans);
    } else {
      FateKept(max, s, steps[0], doomed, orphans);
      var fallen := doomed && steps[0].HandleEvent?;
      OrphansByFate(max, Next(max, s, steps[0]), steps[1..], doomed && !fallen, orphans + if fallen then 1 else 0);
      assert steps == [steps[0]] + steps[1..];
    }
  }

  /** From `close` on, exactly one end lacks its epoch if the call fell between a start and the end reported
      for the same frame and that frame is handled further; otherwise none does. */
  lemma OrphansAfterClose(max: nat, s: State, steps: seq<Step>)
    requires Inv(max, s) && !s.closed && Execute(max, Next(max, s, Close), steps).Some?
    ensures Execute(max, Next(max, s, Close), steps).value.orphans ==
      if BetweenStartAndEnd(s) && HandleEvent in steps then 1 else 0
  {
    hide Execute, Inv, BetweenStartAndEnd, Next, Fate;
    AtClose(max, s);
    OrphansByFate(max, Next(max, s, Close), steps, BetweenStartAndEnd(s), 0);
  }

  lemma FateCounts(s: State, doomed: bool, orphans: nat)
    requires Fate(s, doomed, orphans)
    ensures s.orphans == orphans
  {
  }

  lemma {:induction false} ExecuteSplits(max: nat, s: State, a: seq<Step>, b: seq<Step>)
    requires Execute(max, s, a + b).Some?
    ensures Execute(max, s, a).Some? && Execute(max, s, a + b) == Execute(max, Execute(max, s, a).value, b)
    decreases |a|
  {
    hide Enabled, Next;
    if a == [] {
      assert a + b == b;
    } else {
      assert (a + b)[0] == a[0] && (a + b)[1..] == a[1..] + b;
      ExecuteSplits(max, Next(max, s, a[0]), a[1..], b);
    }
  }

  lemma {:induction false} OnlyCloseCloses(max: nat, s: State, steps: seq<Step>)
    requires Execute(max, s, steps).Some?
    ensures Execute(max, s, steps).value.closed <==> s.closed || Close in steps
    decreases |steps|
  {
    hide Enabled, Next;
    if steps != [] {
      CloseCloses(max, s, steps[0]);
      OnlyCloseCloses(max, Next(max, s, steps[0]), steps[1..]);
      assert steps == [steps[0]] + steps[1..];
    }
  }

  lemma CloseCloses(max: nat, s: State, step: Step)
    requires Enabled(s, step)
    ensures Next(max, s, step).closed <==> s.closed || step.Close?
  {
  }

  /** Over whole runs: without a `close` no end of speech lacks its epoch; with one, exactly the end does
      that the close cut off from its start, once its frame is handled further. The queue stays within its
      bound. */
  lemma EndsFindTheirEpoch(max: nat, steps: seq<Step>)
    requires Execute(max, Init(), steps).Some?
    ensures |Execute(max, Init(), steps).value.queue| <= max
    ensures var orphans := Execute(max, Init(), steps).value.orphans;
      && (Close !in steps ==> orphans == 0)
      && forall i | 0 <= i < |steps| && steps[i].Close? ::
           && Execute(max, Init(), steps[..i]).Some?
           && orphans == if BetweenStartAndEnd(Execute(max, Init(), steps[..i]).value) && HandleEvent in steps[i + 1..] then 1 else 0
  {
    hide Execute, Inv, BetweenStartAndEnd;
    QueueIsBounded(max, steps);
    InitInv(max);
    if Close !in steps {
      RunKeeps(max, Init(), steps);
      OnlyCloseCloses(max, Init(), steps);
      OpenHasNoOrphans(max, Execute(max, Init(), steps).value);
    }
    forall i | 0 <= i < |steps| && steps[i].Close?
      ensures Execute(max, Init(), steps[..i]).Some?
      ensures Execute(max, Init(), steps).value.orphans ==
        if BetweenStartAndEnd(Execute(max, Init(), steps[..i]).value) && HandleEvent in steps[i + 1..] then 1 else 0
    {
      CloseDecides(max, steps, i);
    }
  }

  lemma OpenHasNoOrphans(max: nat, s: State)
    requires Inv(max, s) && !s.closed
    ensures s.orphans == 0
  {
    hide Core, PartialsOk, Alternate, Toggled;
  }

  lemma CloseDecides(max: nat, steps: seq<Step>, i: nat)
    requires Execute(max, Init(), steps).Some? && i < |steps| && steps[i].Close?
    ensures Execute(max, Init(), steps[..i]).Some?
    ensures Execute(max, Init(), steps).value.orphans ==
      if BetweenStartAndEnd(Execute(max, Init(), steps[..i]).value) && HandleEvent in steps[i + 1..] then 1 else 0
  {
    hide Execute, Inv, BetweenStartAndEnd, Next, Fate;
    var before, rest, after := steps[..i], steps[i..], steps[i + 1..];
    assert steps == before + rest && rest[0] == Close && rest[1..] == after;
    ExecuteSplits(max, Init(), before, rest);
    var s := Execute(max, Init(), before).value;
    InitInv(max);
    RunKeeps(max, Init(), before);
    FirstStep(max, s, rest);
    OrphansAfterClose(max, s, after);
  }

  lemma FirstStep(max: nat, s: State, steps: seq<Step>)
    requires steps != [] && Execute(max, s, steps).Some?
    ensures Enabled(s, steps[0]) && Execute(max, s, steps) == Execute(max, Next(max, s, steps[0]), steps[1..])
  {
  }

  /** It happens: one frame that starts and ends speech, with the input closed in between. */
  lemma CloseCanOrphan()
    ensures var steps := [StartStream, Frame(2), Close, HandleEvent];
      Execute(1, Init(), steps).Some? && Execute(1, Init(), steps).value.orphans == 1
  {
    var steps := [StartStream, Frame(2), Close, HandleEvent];
    assert Alternate(false, 2) == [true, false];
    var s1 := Next(1, Init(), StartStream);
    var s2 := Next(1, s1, Frame(2));
    assert s2.pending == [false];
    var s3 := Next(1, s2, Close);
    var s4 := Next(1, s3, HandleEvent);
    assert s4.orphans == 1;
    hide Next;
    assert steps[1..] == [Frame(2), Close, HandleEvent];
    assert steps[1..][1..] == [Close, HandleEvent];
    assert steps[1..][1..][1..] == [HandleEvent];
    assert steps[1..][1..][1..][1..] == [];
  }

  /** The latest speech, once its recognizer has yielded a final and then ends, is delivered as final; without
      a final it is not. */
  lemma FinalIsDelivered(max: nat, steps: seq<Step>)
    requires Execute(max, Init(), steps).Some?
    requires var s := Execute(max, Init(), steps).value; s.worker.Recognizing? && s.worker.epoch == s.epoch
    ensures var s := Execute(max, Init(), steps).value; var t := Next(max, s, RecognizerEnds);
      if HasFinal(s.worker.heard)
      then t.outcomes == s.outcomes + [Outcome(s.epoch, true, s.epoch)] && t.worker.Delivering?
      else t.outcomes == s.outcomes && t.worker == Broken(s.epoch, false, false)
  {
    hide Execute, EventsOk, Core, PartialsOk, Revisions, ShownFor, HasFinal;
    InitInv(max);
    RunKeeps(max, Init(), steps);
  }

  /** Newer speech cancels what is being recognized, and nothing else but a close does. */
  lemma SupersededIsCancelled(max: nat, steps: seq<Step>)
    requires Execute(max, Init(), steps).Some?
    ensures var s := Execute(max, Init(), steps).value;
      s.worker.Recognizing? || s.worker.Delivering? ==>
        (s.worker.epoch < s.epoch ==> s.worker.cancelled) && (s.worker.cancelled ==> s.closed || s.worker.epoch < s.epoch)
  {
    hide Execute, EventsOk, Core, PartialsOk, HeardOk;
    InitInv(max);
    RunKeeps(max, Init(), steps);
  }

  /** Closing cancels the running recognition and forgets the speech in progress; a cancelled recognition that
      then ends by its cancellation is not reported. */
  lemma CloseCancels(max: nat, s: State)
    requires !s.closed
    ensures var t := Next(max, s, Close);
      && t.closed && !t.capturing && t.speaking.None? && t.outcomes == s.outcomes
      && (s.worker.Recognizing? ==>
            && t.worker.Recognizing? && t.worker.cancelled && t.worker.epoch == s.worker.epoch
            && Next(max, Next(max, t, RecognizerRaises(true)), Resume).outcomes == s.outcomes)
      && (s.worker.Delivering? ==>
            && t.worker.Delivering? && t.worker.cancelled && t.worker.epoch == s.worker.epoch
            && Next(max, Next(max, t, DeliveryCancelled), Resume).outcomes == s.outcomes)
  {
  }

  /** A failed recognition of the latest speech is reported as failed, once. */
  lemma FailureIsReported(max: nat, s: State)
    requires s.worker.Broken? && s.worker.epoch == s.epoch && !(s.worker.byCancel && s.closed)
    ensures Next(max, s, Resume).outcomes == s.outcomes + [Outcome(s.epoch, false, s.epoch)]
  {
  }

  /** A partial of the latest speech is shown exactly when it is well formed, no final came before it, and its
      revision is newer than all that were shown. */
  lemma PartialIsShown(max: nat, steps: seq<Step>, event: AsrEvent)
    requires Execute(max, Init(), steps).Some?
    requires var s := Execute(max, Init(), steps).value; s.worker.Recognizing? && s.worker.epoch == s.epoch && event.revision.Some?
    ensures var s := Execute(max, Init(), steps).value; var t := Next(max, s, Hear(event)); var r := event.revision.value;
      var shown := ShownFor(s.partials, s.epoch);
      t.partials == if event.matches && !event.tooLong && !HasFinal(s.worker.heard) && (shown == [] || shown[|shown| - 1] < r)
                    then s.partials + [Partial(s.epoch, r, s.epoch)] else s.partials
  {
    hide Execute, EventsOk, Core, PartialsOk, Revisions, ShownFor, HasFinal;
    InitInv(max);
    RunKeeps(max, Init(), steps);
  }

  /** Partials, too, are shown only for the latest speech, with revisions that grow. */
  lemma PartialsAreCurrent(max: nat, steps: seq<Step>)
    requires Execute(max, Init(), steps).Some?
    ensures var ps := Execute(max, Init(), steps).value.partials;
      && (forall i | 0 <= i < |ps| :: ps[i].epoch == ps[i].current)
      && (forall i, j | 0 <= i < j < |ps| :: Earlier(ps[i], ps[j]))
  {
    hide Execute, EventsOk, Core, Earlier, Reached;
    InitInv(max);
    RunKeeps(max, Init(), steps);
  }
}
