/** The session actor as a transition system. Publishers and waiting submitters take a snapshot of the
    generation under the gate, wait as long as they like, and commit under a synchronous check; each
    `await` in the source that can suspend is a boundary between two steps here. An immediate submission
    is a single step because nothing in it can suspend once it holds the gate: the sequence lock is only
    ever taken under that gate, and neither it nor the lock of a mailbox is held across an `await`, so both
    are free whenever another task runs. */
module Session {
  import opened Text
  import opened DeliveryOrder
  import opened Mailbox

  /** An event, stamped with its session sequence number; `scoped` events belong to a turn. */
  datatype Event = Event(sequence: nat, generation: nat, priority: int, scoped: bool)

  datatype Target = ToInbox | ToOutbox

  /** A call that took its snapshot and has not yet committed. */
  datatype Waiter = Waiter(event: Event, target: Target)

  /** What the generation clock showed at some moment. */
  datatype Clock = Clock(current: nat, cancelled: bool, running: bool)

  /** A commit, and the clock at that moment. */
  datatype Admission = Admission(event: Event, clock: Clock)

  /** A call that gave up, and the clock at that moment. */
  datatype Withdrawal = Withdrawal(event: Event, clock: Clock)

  /** A result that was refused before it was stamped. */
  datatype Refusal = Refusal(generation: nat, clock: Clock)

  /** An event that left a mailbox, and the generation current at that moment. */
  datatype Taken = Taken(event: Event, current: nat)

  /** A mailbox; `displaced` and `taken` are its history. */
  datatype Box = Box(queue: seq<Entry<Event>>, next: nat, displaced: seq<Event>, taken: seq<Taken>)

  datatype State = State(
    generation: nat,
    cancelled: bool,
    running: bool,
    outboxClosed: bool,
    sequence: nat,
    waiting: seq<Waiter>,
    inbox: Box,
    outbox: Box,
    stale: nat,
    intoInbox: seq<Admission>,
    intoOutbox: seq<Admission>,
    withdrawn: seq<Withdrawal>,
    refused: seq<Event>,
    unstamped: seq<Refusal>,
    sent: seq<Event>)

  datatype Config = Config(inboxCapacity: nat, outboxCapacity: nat)

  function Init(): State {
    State(0, false, true, false, 0, [], Box([], 0, [], []), Box([], 0, [], []), 0, [], [], [], [], [], [])
  }

  /** `CancellationSource.accepts`: current, not cancelled, not closed. */
  predicate Accepts(s: State, generation: nat) {
    s.running && generation == s.generation && !s.cancelled
  }

  datatype Step =
    | Submit(priority: int, scoped: bool)
    | SubmitWait(priority: int, scoped: bool)
    | Foreground(priority: int)
    | ForegroundWait(priority: int)
    | Publish(generation: nat, priority: int, scoped: bool)
    | Commit(waiter: nat)
    | Withdraw(waiter: nat)
    | CancelCurrent
    | Handle
    | Send
    | Stop
    | CloseOutbox

  predicate Enabled(s: State, step: Step) {
    match step
    case Submit(_, _) => Accepts(s, s.generation)
    case SubmitWait(_, _) => Accepts(s, s.generation)
    case Foreground(_) => s.running
    case ForegroundWait(_) => s.running
    case Publish(_, _, _) => true
    case Commit(i) => i < |s.waiting|
    case Withdraw(i) => i < |s.waiting| && !Accepts(s, s.waiting[i].event.generation)
    case CancelCurrent => true
    case Handle => s.inbox.queue != []
    case Send => s.outbox.queue != []
    case Stop => s.running
    case CloseOutbox => !s.running && !s.outboxClosed
  }

  function Now(s: State): Clock {
    Clock(s.generation, s.cancelled, s.running)
  }

  /** A mailbox after an offer that was taken. */
  function Filled(b: Box, o: Offered<Event>): Box {
    Box(o.queue, b.next + 1, b.displaced + (if o.evicted.Some? then [o.evicted.value.item] else []), b.taken)
  }

  /** A mailbox without its head. */
  function Emptied(b: Box, current: nat): Box
    requires b.queue != []
  {
    Box(b.queue[1..], b.next, b.displaced, b.taken + [Taken(b.queue[0].item, current)])
  }

  function Stamp(s: State, generation: nat, priority: int, scoped: bool): Event {
    Event(s.sequence, generation, priority, scoped)
  }

  function Advanced(s: State): State {
    s.(generation := s.generation + 1, cancelled := false)
  }

  /** An immediate put into the inbox, under the gate. */
  function PutNow(c: Config, s: State, event: Event): State {
    var o := Offer(s.inbox.queue, Entry(event, event.priority, s.inbox.next), c.inboxCapacity, true);
    var s1 := s.(sequence := s.sequence + 1);
    if o.taken then
      s1.(inbox := Filled(s.inbox, o), intoInbox := s.intoInbox + [Admission(event, Now(s))])
    else s1.(refused := s.refused + [event])
  }

  function Enqueue(s: State, event: Event, target: Target): State {
    s.(sequence := s.sequence + 1, waiting := s.waiting + [Waiter(event, target)])
  }

  function Drop<T>(s: seq<T>, i: nat): seq<T>
    requires i < |s|
  {
    s[..i] + s[i + 1..]
  }

  /** One pass of the `put_wait` loop: the commit check first, then the mailbox rules. Waiting inbox
      submissions never displace anything; output may. */
  function Committed(c: Config, s: State, i: nat): State
    requires i < |s.waiting|
  {
    var w := s.waiting[i];
    var e := w.event;
    if w.target == ToOutbox && s.outboxClosed then Dropped(s, i)
    else if !Accepts(s, e.generation) then Withdrawn(s, i)
    else if w.target == ToInbox then
      var o := Offer(s.inbox.queue, Entry(e, e.priority, s.inbox.next), c.inboxCapacity, false);
      if !o.taken then s
      else s.(waiting := Drop(s.waiting, i), inbox := Filled(s.inbox, o), intoInbox := s.intoInbox + [Admission(e, Now(s))])
    else
      var o := Offer(s.outbox.queue, Entry(e, e.priority, s.outbox.next), c.outboxCapacity, true);
      if !o.taken then s
      else s.(waiting := Drop(s.waiting, i), outbox := Filled(s.outbox, o), intoOutbox := s.intoOutbox + [Admission(e, Now(s))])
  }

  /** The call gives up: its generation was cancelled. Withdrawn output counts as a stale result. */
  function Withdrawn(s: State, i: nat): State
    requires i < |s.waiting|
  {
    Dropped(s, i).(stale := if s.waiting[i].target == ToOutbox then s.stale + 1 else s.stale)
  }

  /** The call gives up; alone, this is the closed mailbox, which is not counted. */
  function Dropped(s: State, i: nat): State
    requires i < |s.waiting|
  {
    s.(waiting := Drop(s.waiting, i), withdrawn := s.withdrawn + [Withdrawal(s.waiting[i].event, Now(s))])
  }

  function Next(c: Config, s: State, step: Step): State
    requires Enabled(s, step)
  {
    match step
    case Submit(priority, scoped) => PutNow(c, s, Stamp(s, s.generation, priority, scoped))
    case SubmitWait(priority, scoped) => Enqueue(s, Stamp(s, s.generation, priority, scoped), ToInbox)
    case Foreground(priority) => PutNow(c, Advanced(s), Stamp(s, s.generation + 1, priority, true))
    case ForegroundWait(priority) => Enqueue(Advanced(s), Stamp(s, s.generation + 1, priority, true), ToInbox)
    case Publish(generation, priority, scoped) =>
      if Accepts(s, generation) then Enqueue(s, Stamp(s, generation, priority, scoped), ToOutbox)
      else s.(stale := s.stale + 1, unstamped := s.unstamped + [Refusal(generation, Now(s))])
    case Commit(i) => Committed(c, s, i)
    case Withdraw(i) => Withdrawn(s, i)
    case CancelCurrent => s.(cancelled := true)
    case Handle => s.(inbox := Emptied(s.inbox, s.generation))
    case Send => Sent(s)
    case Stop => s.(running := false, cancelled := true)
    case CloseOutbox => s.(outboxClosed := true)
  }

  /** The sender takes the head of the outbox and skips turn output of an older generation. */
  function Sent(s: State): State
    requires s.outbox.queue != []
  {
    var e := s.outbox.queue[0].item;
    var s1 := s.(outbox := Emptied(s.outbox, s.generation));
    if e.scoped && e.generation < s.generation then s1 else s1.(sent := s.sent + [e])
  }

  /** Where a schedule leads, step by step; `None` if a step is not enabled in its turn. */
  function Execute(c: Config, s: State, steps: seq<Step>): Option<State>
    decreases |steps|
  {
    if steps == [] then Some(s)
    else if Enabled(s, steps[0]) then Execute(c, Next(c, s, steps[0]), steps[1..])
    else None
  }

  // ---- What every step keeps ----

  /** The generation is current and nothing has ended it. */
  predicate Live(clock: Clock, generation: nat) {
    clock.running && !clock.cancelled && clock.current == generation
  }

  ghost predicate Gated(log: seq<Admission>, generation: nat) {
    && (forall i :: 0 <= i < |log| ==> Live(log[i].clock, log[i].event.generation) && log[i].event.generation <= generation)
    && (forall i, j :: 0 <= i < j < |log| ==> log[i].event.generation <= log[j].event.generation)
  }

  /** Scoped output was sent in generation order, none of it newer than the current one. */
  ghost predicate SentOk(sent: seq<Event>, generation: nat) {
    && (forall i :: 0 <= i < |sent| && sent[i].scoped ==> sent[i].generation <= generation)
    && (forall i, j :: 0 <= i < j < |sent| && sent[i].scoped && sent[j].scoped ==> sent[i].generation <= sent[j].generation)
  }

  ghost predicate BoxOk(b: Box, capacity: nat, generation: nat) {
    && |b.queue| <= capacity
    && Ordered(b.queue)
    && (forall i :: 0 <= i < |b.queue| ==> b.queue[i].order < b.next && b.queue[i].item.generation <= generation)
    && (forall i :: 0 <= i < |b.taken| ==> b.taken[i].current <= generation)
  }

  /** Whoever gave up or was refused had no live generation any more. */
  ghost predicate GaveUpOk(withdrawn: seq<Withdrawal>, unstamped: seq<Refusal>) {
    && (forall i :: 0 <= i < |withdrawn| ==> !Live(withdrawn[i].clock, withdrawn[i].event.generation))
    && (forall i :: 0 <= i < |unstamped| ==> !Live(unstamped[i].clock, unstamped[i].generation))
  }

  function EntryNumbers(q: seq<Entry<Event>>): multiset<nat> {
    if q == [] then multiset{} else multiset{q[0].item.sequence} + EntryNumbers(q[1..])
  }

  function TakenNumbers(taken: seq<Taken>): multiset<nat> {
    if taken == [] then multiset{} else TakenNumbers(taken[..|taken| - 1]) + multiset{taken[|taken| - 1].event.sequence}
  }

  function WithdrawnNumbers(withdrawn: seq<Withdrawal>): multiset<nat> {
    if withdrawn == [] then multiset{}
    else WithdrawnNumbers(withdrawn[..|withdrawn| - 1]) + multiset{withdrawn[|withdrawn| - 1].event.sequence}
  }

  /** Whatever was admitted is queued, was displaced by something more important, or was taken out. */
  ghost predicate Conserved(b: Box, log: seq<Admission>) {
    AdmissionNumbers(log) == EntryNumbers(b.queue) + EventNumbers(b.displaced) + TakenNumbers(b.taken)
  }

  /** What the sender passes on: everything it takes, except turn output older than the current turn. */
  function PassedOn(taken: seq<Taken>): seq<Event> {
    if taken == [] then []
    else
      var last := taken[|taken| - 1];
      PassedOn(taken[..|taken| - 1]) + if last.event.scoped && last.event.generation < last.current then [] else [last.event]
  }

  ghost predicate WaitingOk(waiting: seq<Waiter>, generation: nat) {
    forall i :: 0 <= i < |waiting| ==> waiting[i].event.generation <= generation
  }

  function WaiterNumbers(waiting: seq<Waiter>): multiset<nat> {
    if waiting == [] then multiset{} else WaiterNumbers(waiting[..|waiting| - 1]) + multiset{waiting[|waiting| - 1].event.sequence}
  }

  function AdmissionNumbers(log: seq<Admission>): multiset<nat> {
    if log == [] then multiset{} else AdmissionNumbers(log[..|log| - 1]) + multiset{log[|log| - 1].event.sequence}
  }

  function EventNumbers(events: seq<Event>): multiset<nat> {
    if events == [] then multiset{} else EventNumbers(events[..|events| - 1]) + multiset{events[|events| - 1].sequence}
  }

  /** The sequence numbers of all events, wherever they went: waiting, admitted, withdrawn or refused. */
  function Ledger(waiting: seq<Waiter>, intoInbox: seq<Admission>, intoOutbox: seq<Admission>,
                  withdrawn: seq<Withdrawal>, refused: seq<Event>): multiset<nat> {
    WaiterNumbers(waiting) + AdmissionNumbers(intoInbox) + AdmissionNumbers(intoOutbox)
    + WithdrawnNumbers(withdrawn) + EventNumbers(refused)
  }

  /** Every number below `n`, once. */
  ghost predicate EachOnce(numbers: multiset<nat>, n: nat) {
    forall k: nat :: numbers[k] == if k < n then 1 else 0
  }

  /** Every number ever stamped is in exactly one place, and there is no other. */
  ghost predicate Accounted(s: State) {
    EachOnce(Ledger(s.waiting, s.intoInbox, s.intoOutbox, s.withdrawn, s.refused), s.sequence)
  }

  ghost predicate Inv(c: Config, s: State) {
    && Gated(s.intoInbox, s.generation) && Gated(s.intoOutbox, s.generation)
    && BoxOk(s.inbox, c.inboxCapacity, s.generation) && BoxOk(s.outbox, c.outboxCapacity, s.generation)
    && WaitingOk(s.waiting, s.generation)
    && SentOk(s.sent, s.generation)
    && Accounted(s)
    && Conserved(s.inbox, s.intoInbox) && Conserved(s.outbox, s.intoOutbox)
    && s.sent == PassedOn(s.outbox.taken)
    && GaveUpOk(s.withdrawn, s.unstamped) && (s.outboxClosed ==> !s.running)
  }

  lemma AdmissionMore(log: seq<Admission>, a: Admission)
    ensures AdmissionNumbers(log + [a]) == AdmissionNumbers(log) + multiset{a.event.sequence}
  {
    assert (log + [a])[..|log|] == log;
  }

  lemma EventMore(events: seq<Event>, e: Event)
    ensures EventNumbers(events + [e]) == EventNumbers(events) + multiset{e.sequence}
  {
    assert (events + [e])[..|events|] == events;
  }

  lemma WithdrawnMore(withdrawn: seq<Withdrawal>, w: Withdrawal)
    ensures WithdrawnNumbers(withdrawn + [w]) == WithdrawnNumbers(withdrawn) + multiset{w.event.sequence}
  {
    assert (withdrawn + [w])[..|withdrawn|] == withdrawn;
  }

  lemma TakenMore(taken: seq<Taken>, t: Taken)
    ensures TakenNumbers(taken + [t]) == TakenNumbers(taken) + multiset{t.event.sequence}
    ensures PassedOn(taken + [t]) == PassedOn(taken) + if t.event.scoped && t.event.generation < t.current then [] else [t.event]
  {
    assert (taken + [t])[..|taken|] == taken;
  }

  lemma {:induction false} PlaceNumbers(q: seq<Entry<Event>>, e: Entry<Event>)
    ensures EntryNumbers(Place(q, e)) == EntryNumbers(q) + multiset{e.item.sequence}
  {
    hide Before;
    if q == [] || Before(e, q[0]) {
      assert ([e] + q)[1..] == q;
    } else {
      PlaceNumbers(q[1..], e);
      assert ([q[0]] + Place(q[1..], e))[1..] == Place(q[1..], e);
    }
  }

  lemma {:induction false} EntryNumbersFront(q: seq<Entry<Event>>)
    requires q != []
    ensures EntryNumbers(q) == EntryNumbers(q[..|q| - 1]) + multiset{q[|q| - 1].item.sequence}
  {
    if |q| > 1 {
      EntryNumbersFront(q[1..]);
      assert q[1..][..|q| - 2] == q[..|q| - 1][1..];
    }
  }

  /** An offer that is taken: one number more, and a displaced one is remembered. */
  lemma FilledConserves(b: Box, log: seq<Admission>, a: Admission, o: Offered<Event>, capacity: nat, displace: bool)
    requires Conserved(b, log) && o == Offer(b.queue, Entry(a.event, a.event.priority, b.next), capacity, displace) && o.taken
    ensures Conserved(Filled(b, o), log + [a])
  {
    hide Place, EntryNumbers, EventNumbers, AdmissionNumbers, TakenNumbers;
    var e := Entry(a.event, a.event.priority, b.next);
    AdmissionMore(log, a);
    if o.evicted.None? {
      PlaceNumbers(b.queue, e);
      assert b.displaced + [] == b.displaced;
    } else {
      var front := b.queue[..|b.queue| - 1];
      PlaceNumbers(front, e);
      EntryNumbersFront(b.queue);
      EventMore(b.displaced, o.evicted.value.item);
    }
  }

  lemma EmptiedConserves(b: Box, log: seq<Admission>, current: nat)
    requires Conserved(b, log) && b.queue != []
    ensures Conserved(Emptied(b, current), log)
  {
    hide EventNumbers, AdmissionNumbers, TakenNumbers;
    TakenMore(b.taken, Taken(b.queue[0].item, current));
  }

  lemma WaiterMore(waiting: seq<Waiter>, w: Waiter)
    ensures WaiterNumbers(waiting + [w]) == WaiterNumbers(waiting) + multiset{w.event.sequence}
  {
    assert (waiting + [w])[..|waiting|] == waiting;
  }

  lemma {:induction false} WaiterLess(waiting: seq<Waiter>, i: nat)
    requires i < |waiting|
    ensures WaiterNumbers(waiting) == WaiterNumbers(Drop(waiting, i)) + multiset{waiting[i].event.sequence}
    decreases |waiting|
  {
    hide WaiterNumbers;
    var n := |waiting| - 1;
    var front, last := waiting[..n], waiting[n];
    assert waiting == front + [last];
    WaiterMore(front, last);
    if i < n {
      WaiterLess(front, i);
      assert Drop(waiting, i) == Drop(front, i) + [last];
      WaiterMore(Drop(front, i), last);
    } else {
      assert Drop(waiting, i) == front;
    }
  }

  /** A new event is admitted, refused or starts to wait: one more number. */
  lemma NewNumber(s: State, e: Event, target: Target)
    requires Accounted(s) && e.sequence == s.sequence
    ensures EachOnce(Ledger(s.waiting, s.intoInbox + [Admission(e, Now(s))], s.intoOutbox, s.withdrawn, s.refused), s.sequence + 1)
    ensures EachOnce(Ledger(s.waiting, s.intoInbox, s.intoOutbox, s.withdrawn, s.refused + [e]), s.sequence + 1)
    ensures EachOnce(Ledger(s.waiting + [Waiter(e, target)], s.intoInbox, s.intoOutbox, s.withdrawn, s.refused), s.sequence + 1)
  {
    hide EachOnce, WaiterNumbers, AdmissionNumbers, EventNumbers, WithdrawnNumbers;
    var numbers := Ledger(s.waiting, s.intoInbox, s.intoOutbox, s.withdrawn, s.refused);
    OneMore(numbers, s.sequence);
    AdmissionMore(s.intoInbox, Admission(e, Now(s)));
    EventMore(s.refused, e);
    WaiterMore(s.waiting, Waiter(e, target));
    assert Ledger(s.waiting, s.intoInbox + [Admission(e, Now(s))], s.intoOutbox, s.withdrawn, s.refused) == numbers + multiset{e.sequence};
    assert Ledger(s.waiting, s.intoInbox, s.intoOutbox, s.withdrawn, s.refused + [e]) == numbers + multiset{e.sequence};
    assert Ledger(s.waiting + [Waiter(e, target)], s.intoInbox, s.intoOutbox, s.withdrawn, s.refused) == numbers + multiset{e.sequence};
  }

  /** A waiting event is admitted or withdrawn: its number changes place. */
  lemma MovedNumber(s: State, i: nat)
    requires i < |s.waiting|
    ensures var numbers := Ledger(s.waiting, s.intoInbox, s.intoOutbox, s.withdrawn, s.refused);
      var rest, a := Drop(s.waiting, i), Admission(s.waiting[i].event, Now(s));
      && Ledger(rest, s.intoInbox + [a], s.intoOutbox, s.withdrawn, s.refused) == numbers
      && Ledger(rest, s.intoInbox, s.intoOutbox + [a], s.withdrawn, s.refused) == numbers
      && Ledger(rest, s.intoInbox, s.intoOutbox, s.withdrawn + [Withdrawal(s.waiting[i].event, Now(s))], s.refused) == numbers
  {
    hide WaiterNumbers, AdmissionNumbers, EventNumbers, WithdrawnNumbers, Drop;
    var a := Admission(s.waiting[i].event, Now(s));
    WaiterLess(s.waiting, i);
    AdmissionMore(s.intoInbox, a);
    AdmissionMore(s.intoOutbox, a);
    WithdrawnMore(s.withdrawn, Withdrawal(s.waiting[i].event, Now(s)));
  }

  /** One more number, the next one. */
  lemma OneMore(numbers: multiset<nat>, n: nat)
    requires EachOnce(numbers, n)
    ensures EachOnce(numbers + multiset{n}, n + 1)
  {
  }

  lemma OfferKeeps(b: Box, e: Event, capacity: nat, displace: bool, generation: nat)
    requires BoxOk(b, capacity, generation) && e.generation <= generation
    ensures var o := Offer(b.queue, Entry(e, e.priority, b.next), capacity, displace);
            o.taken ==> BoxOk(Filled(b, o), capacity, generation)
  {
    hide Place, Before;
    var entry := Entry(e, e.priority, b.next);
    if |b.queue| < capacity {
      PlaceKeeps(b.queue, entry, generation);
    } else if b.queue != [] {
      PlaceKeeps(b.queue[..|b.queue| - 1], entry, generation);
    }
  }

  lemma PlaceKeeps(q: seq<Entry<Event>>, e: Entry<Event>, generation: nat)
    requires Ordered(q) && e.item.generation <= generation
    requires forall i :: 0 <= i < |q| ==> q[i].order < e.order && q[i].item.generation <= generation
    ensures var r := Place(q, e);
            && |r| == |q| + 1 && Ordered(r)
            && forall i :: 0 <= i < |r| ==> r[i].order < e.order + 1 && r[i].item.generation <= generation
  {
    hide Place, Before;
    PlaceEntries(q, e);
    PlaceOrdered(q, e);
    forall i | 0 <= i < |Place(q, e)|
      ensures Place(q, e)[i].order < e.order + 1 && Place(q, e)[i].item.generation <= generation
    {
      assert Place(q, e)[i] in Place(q, e);
    }
  }

  lemma GatedMore(log: seq<Admission>, generation: nat, e: Event)
    requires Gated(log, generation) && e.generation == generation
    ensures Gated(log + [Admission(e, Clock(generation, false, true))], generation)
  {
  }

  lemma PutNowKeeps(c: Config, s: State, e: Event)
    requires Inv(c, s) && e.generation == s.generation && e.sequence == s.sequence && Accepts(s, s.generation)
    ensures Inv(c, PutNow(c, s, e)) && PutNow(c, s, e).generation == s.generation
  {
    hide Gated, BoxOk, WaitingOk, SentOk, Offer, Ledger, EachOnce, Conserved, GaveUpOk, PassedOn, Filled;
    NewNumber(s, e, ToInbox);
    var o := Offer(s.inbox.queue, Entry(e, e.priority, s.inbox.next), c.inboxCapacity, true);
    if o.taken {
      FilledConserves(s.inbox, s.intoInbox, Admission(e, Now(s)), o, c.inboxCapacity, true);
    }
    OfferKeeps(s.inbox, e, c.inboxCapacity, true, s.generation);
    GatedMore(s.intoInbox, s.generation, e);
  }

  /** A later generation invalidates nothing that was recorded before. */
  lemma AdvancedKeeps(c: Config, s: State)
    requires Inv(c, s)
    ensures Inv(c, Advanced(s))
  {
    hide Ordered, Ledger, EachOnce, Conserved, GaveUpOk, PassedOn;
  }

  lemma CommittedKeeps(c: Config, s: State, i: nat)
    requires Inv(c, s) && i < |s.waiting|
    ensures Inv(c, Committed(c, s, i)) && Committed(c, s, i).generation == s.generation
  {
    hide Gated, BoxOk, SentOk, Offer, Ledger, EachOnce, Conserved, PassedOn;
    MovedNumber(s, i);
    CommitConserves(c, s, i);
    var e := s.waiting[i].event;
    if Accepts(s, e.generation) {
      OfferKeeps(s.inbox, e, c.inboxCapacity, false, s.generation);
      OfferKeeps(s.outbox, e, c.outboxCapacity, true, s.generation);
      GatedMore(s.intoInbox, s.generation, e);
      GatedMore(s.intoOutbox, s.generation, e);
    }
  }

  lemma CommitConserves(c: Config, s: State, i: nat)
    requires Inv(c, s) && i < |s.waiting|
    ensures var t := Committed(c, s, i); Conserved(t.inbox, t.intoInbox) && Conserved(t.outbox, t.intoOutbox)
  {
    hide Gated, BoxOk, SentOk, WaitingOk, Offer, Accounted, Conserved, PassedOn, Filled, GaveUpOk, Drop;
    var e := s.waiting[i].event;
    var a := Admission(e, Now(s));
    var into := Offer(s.inbox.queue, Entry(e, e.priority, s.inbox.next), c.inboxCapacity, false);
    if into.taken {
      FilledConserves(s.inbox, s.intoInbox, a, into, c.inboxCapacity, false);
    }
    var out := Offer(s.outbox.queue, Entry(e, e.priority, s.outbox.next), c.outboxCapacity, true);
    if out.taken {
      FilledConserves(s.outbox, s.intoOutbox, a, out, c.outboxCapacity, true);
    }
  }

  lemma HeadLeaves(b: Box, capacity: nat, generation: nat)
    requires BoxOk(b, capacity, generation) && b.queue != []
    ensures BoxOk(Emptied(b, generation), capacity, generation)
    ensures b.queue[0].item.generation <= generation
  {
    hide Before;
    OrderedTail(b.queue);
  }

  lemma SentKeeps(c: Config, s: State)
    requires Inv(c, s) && s.outbox.queue != []
    ensures Inv(c, Sent(s)) && Sent(s).generation == s.generation
  {
    hide Gated, BoxOk, WaitingOk, Ledger, EachOnce, Conserved, GaveUpOk, PassedOn, TakenNumbers;
    HeadLeaves(s.outbox, c.outboxCapacity, s.generation);
    EmptiedConserves(s.outbox, s.intoOutbox, s.generation);
    TakenMore(s.outbox.taken, Taken(s.outbox.queue[0].item, s.generation));
    assert s.sent + [] == s.sent;
  }

  lemma NextKeeps(c: Config, s: State, step: Step)
    requires Inv(c, s) && Enabled(s, step)
    ensures Inv(c, Next(c, s, step)) && s.generation <= Next(c, s, step).generation
  {
    hide Gated, BoxOk, SentOk, PutNow, Committed, Sent, Ledger, EachOnce, Conserved, PassedOn, Emptied;
    match step
    case Submit(priority, scoped) => PutNowKeeps(c, s, Stamp(s, s.generation, priority, scoped));
    case SubmitWait(priority, scoped) => NewNumber(s, Stamp(s, s.generation, priority, scoped), ToInbox);
    case Publish(generation, priority, scoped) => NewNumber(s, Stamp(s, generation, priority, scoped), ToOutbox);
    case Withdraw(i) => MovedNumber(s, i);
    case Foreground(priority) =>
      AdvancedKeeps(c, s);
      PutNowKeeps(c, Advanced(s), Stamp(s, s.generation + 1, priority, true));
    case ForegroundWait(priority) =>
      AdvancedKeeps(c, s);
      NewNumber(Advanced(s), Stamp(s, s.generation + 1, priority, true), ToInbox);
    case Commit(i) => CommittedKeeps(c, s, i);
    case Send => SentKeeps(c, s);
    case Handle =>
      HeadLeaves(s.inbox, c.inboxCapacity, s.generation);
      EmptiedConserves(s.inbox, s.intoInbox, s.generation);
    case _ =>
  }

  lemma {:induction false} RunKeeps(c: Config, s: State, steps: seq<Step>)
    requires Inv(c, s) && Execute(c, s, steps).Some?
    ensures Inv(c, Execute(c, s, steps).value)
    ensures s.generation <= Execute(c, s, steps).value.generation
    decreases |steps|
  {
    hide Inv, Next, Enabled;
    if steps != [] {
      NextKeeps(c, s, steps[0]);
      RunKeeps(c, Next(c, s, steps[0]), steps[1..]);
    }
  }

  lemma InitInv(c: Config)
    ensures Inv(c, Init())
  {
  }

  // ---- Theorems ----

  /** Generation gating: in every run, whatever entered a mailbox did so while its generation was current
      and uncancelled, so admitted generations never decrease; mailboxes stay within capacity and in
      delivery order; and every stamped event has exactly one fate. */
  lemma AdmissionsAreGated(c: Config, steps: seq<Step>)
    requires Execute(c, Init(), steps).Some?
    ensures var s := Execute(c, Init(), steps).value;
            && Gated(s.intoInbox, s.generation) && Gated(s.intoOutbox, s.generation)
            && |s.inbox.queue| <= c.inboxCapacity && |s.outbox.queue| <= c.outboxCapacity
            && Ordered(s.inbox.queue) && Ordered(s.outbox.queue) && Accounted(s)
  {
    hide Gated, Accounted, Execute, Ordered;
    InitInv(c);
    RunKeeps(c, Init(), steps);
  }

  /** The outbox over every run: what was admitted is queued, was displaced, or was taken out, each number in
      one place; and of what was taken exactly turn output older than the turn then current was skipped, all
      else was sent, in order. Whoever gave up, or was refused, had no live generation. */
  lemma OutboxIsConserved(c: Config, steps: seq<Step>)
    requires Execute(c, Init(), steps).Some?
    ensures var s := Execute(c, Init(), steps).value;
      && AdmissionNumbers(s.intoOutbox) == EntryNumbers(s.outbox.queue) + EventNumbers(s.outbox.displaced) + TakenNumbers(s.outbox.taken)
      && AdmissionNumbers(s.intoInbox) == EntryNumbers(s.inbox.queue) + EventNumbers(s.inbox.displaced) + TakenNumbers(s.inbox.taken)
      && s.sent == PassedOn(s.outbox.taken)
      && GaveUpOk(s.withdrawn, s.unstamped)
  {
    hide Gated, Accounted, Execute, BoxOk, WaitingOk, SentOk, PassedOn, EntryNumbers, EventNumbers, TakenNumbers, AdmissionNumbers, GaveUpOk;
    InitInv(c);
    RunKeeps(c, Init(), steps);
  }

  function EventsOf(taken: seq<Taken>): seq<Event> {
    if taken == [] then [] else EventsOf(taken[..|taken| - 1]) + [taken[|taken| - 1].event]
  }

  lemma {:induction false} NothingOlder(taken: seq<Taken>)
    requires forall i :: 0 <= i < |taken| ==> taken[i].current == 0
    ensures PassedOn(taken) == EventsOf(taken)
  {
    if taken != [] {
      NothingOlder(taken[..|taken| - 1]);
    }
  }

  /** A run that never replaces its turn sends everything it takes, in order. */
  lemma UndisturbedTurnIsSent(c: Config, steps: seq<Step>)
    requires Execute(c, Init(), steps).Some? && Execute(c, Init(), steps).value.generation == 0
    ensures var s := Execute(c, Init(), steps).value; s.sent == EventsOf(s.outbox.taken)
  {
    hide Gated, Accounted, Execute, WaitingOk, SentOk, PassedOn, EventsOf, Conserved, GaveUpOk, Ordered;
    InitInv(c);
    RunKeeps(c, Init(), steps);
    NothingOlder(Execute(c, Init(), steps).value.outbox.taken);
  }

  predicate Replaces(step: Step) {
    step.Foreground? || step.ForegroundWait?
  }

  lemma CancelledAdmitsNothing(c: Config, s: State, step: Step)
    requires s.cancelled && Enabled(s, step) && !Replaces(step)
    ensures var t := Next(c, s, step); t.cancelled && t.intoInbox == s.intoInbox && t.intoOutbox == s.intoOutbox
  {
    hide Offer, Drop;
  }

  /** Once the turn is cancelled nothing is admitted any more until a new turn replaces it. */
  lemma {:induction false} CancelSilences(c: Config, s: State, steps: seq<Step>)
    requires s.cancelled && Execute(c, s, steps).Some? && forall i | 0 <= i < |steps| :: !Replaces(steps[i])
    ensures var t := Execute(c, s, steps).value; t.intoInbox == s.intoInbox && t.intoOutbox == s.intoOutbox
    decreases |steps|
  {
    hide Next, Enabled;
    if steps != [] {
      CancelledAdmitsNothing(c, s, steps[0]);
      CancelSilences(c, Next(c, s, steps[0]), steps[1..]);
    }
  }

  /** `cancel_current` and `stop` cancel the turn; a foreground turn starts the next generation. */
  lemma CancelCancels(c: Config, s: State)
    ensures Next(c, s, CancelCurrent).cancelled
    ensures s.running ==> Next(c, s, Stop).cancelled && !Next(c, s, Stop).running
    ensures !s.running && !s.outboxClosed ==> Next(c, s, CloseOutbox).outboxClosed
    ensures forall p | Enabled(s, Foreground(p)) :: Next(c, s, Foreground(p)).generation == s.generation + 1 && !Next(c, s, Foreground(p)).cancelled
    ensures forall p | Enabled(s, ForegroundWait(p)) ::
      Next(c, s, ForegroundWait(p)).generation == s.generation + 1 && !Next(c, s, ForegroundWait(p)).cancelled
  {
    hide Offer;
  }

  /** The most important entry, the oldest of its priority. */
  ghost predicate Foremost(queue: seq<Entry<Event>>, e: Entry<Event>) {
    && e in queue
    && forall i | 0 <= i < |queue| ::
         queue[i].priority < e.priority || (queue[i].priority == e.priority && e.order <= queue[i].order)
  }

  /** The handler takes out the most important event, the oldest of its priority, and only that one. */
  lemma HandlerTakesForemost(c: Config, s: State)
    requires Ordered(s.inbox.queue) && s.inbox.queue != []
    ensures var t := Next(c, s, Handle); var head := s.inbox.queue[0];
      && Foremost(s.inbox.queue, head) && s.inbox.queue == [head] + t.inbox.queue
      && t.inbox.taken == s.inbox.taken + [Taken(head.item, s.generation)]
  {
    hide Foremost, Ordered;
    HeadIsForemost(s.inbox.queue);
  }

  /** So does the sender. */
  lemma SenderTakesForemost(c: Config, s: State)
    requires Ordered(s.outbox.queue) && s.outbox.queue != []
    ensures var t := Next(c, s, Send); var head := s.outbox.queue[0];
      && Foremost(s.outbox.queue, head) && s.outbox.queue == [head] + t.outbox.queue
      && t.outbox.taken == s.outbox.taken + [Taken(head.item, s.generation)]
  {
    hide Foremost, Ordered;
    HeadIsForemost(s.outbox.queue);
  }

  lemma HeadIsForemost(queue: seq<Entry<Event>>)
    requires queue != [] && Ordered(queue)
    ensures Foremost(queue, queue[0])
  {
    forall i | 0 <= i < |queue|
      ensures queue[i].priority < queue[0].priority || (queue[i].priority == queue[0].priority && queue[0].order <= queue[i].order) {
      assert i > 0 ==> Before(queue[0], queue[i]);
    }
  }

  /** A result waits for the outbox under the generation it was made for, with the next number; without a live
      generation it is refused and counted as stale. */
  lemma ResultsEnter(c: Config, s: State, generation: nat, priority: int, scoped: bool)
    ensures var t := Next(c, s, Publish(generation, priority, scoped));
      if Live(Now(s), generation) then
        t.waiting == s.waiting + [Waiter(Event(s.sequence, generation, priority, scoped), ToOutbox)] && t.stale == s.stale
      else t.waiting == s.waiting && t.stale == s.stale + 1
  {
    hide Offer;
  }

  /** A submission that may wait does so for the inbox, a foreground turn under the next generation. */
  lemma SubmissionsWait(c: Config, s: State, priority: int, scoped: bool)
    ensures Live(Now(s), s.generation) ==>
      Next(c, s, SubmitWait(priority, scoped)).waiting ==
        s.waiting + [Waiter(Event(s.sequence, s.generation, priority, scoped), ToInbox)]
    ensures s.running ==>
      Next(c, s, ForegroundWait(priority)).waiting ==
        s.waiting + [Waiter(Event(s.sequence, s.generation + 1, priority, true), ToInbox)]
  {
    hide Offer;
  }

  /** The last of a list in delivery order is its least important entry. */
  predicate Room(b: Box, capacity: nat, priority: int) {
    |b.queue| < capacity || (b.queue != [] && priority > b.queue[|b.queue| - 1].priority)
  }

  /** An immediate submission enters the inbox exactly when there is room or it outranks the least important
      entry; a foreground turn does so under the next generation. */
  lemma SubmissionsEnter(c: Config, s: State, priority: int, scoped: bool)
    ensures Live(Now(s), s.generation) ==>
      var e := Event(s.sequence, s.generation, priority, scoped);
      Next(c, s, Submit(priority, scoped)).intoInbox ==
        if Room(s.inbox, c.inboxCapacity, priority) then s.intoInbox + [Admission(e, Now(s))] else s.intoInbox
    ensures s.running ==>
      var e := Event(s.sequence, s.generation + 1, priority, true);
      Next(c, s, Foreground(priority)).intoInbox ==
        if Room(s.inbox, c.inboxCapacity, priority) then s.intoInbox + [Admission(e, Clock(s.generation + 1, false, true))]
        else s.intoInbox
  {
    hide Place;
  }

  /** A waiting call commits when its generation is live and there is room for it, in the outbox also by
      displacing what is less important, and never otherwise. */
  lemma CommitDecides(c: Config, s: State, i: nat)
    requires Inv(c, s) && i < |s.waiting|
    ensures var t := Committed(c, s, i); var w := s.waiting[i]; var live := Live(Now(s), w.event.generation);
      && t.intoInbox == (if w.target == ToInbox && live && |s.inbox.queue| < c.inboxCapacity
                         then s.intoInbox + [Admission(w.event, Now(s))] else s.intoInbox)
      && t.intoOutbox == (if w.target == ToOutbox && live && Room(s.outbox, c.outboxCapacity, w.event.priority)
                          then s.intoOutbox + [Admission(w.event, Now(s))] else s.intoOutbox)
  {
    hide Gated, BoxOk, WaitingOk, SentOk, Accounted, Conserved, PassedOn, GaveUpOk, Place, Drop;
  }

  /** Who commits or gives up no longer waits; a result that gives up is counted as stale, unless the outbox
      is closed. */
  lemma CommitLeaves(c: Config, s: State, i: nat)
    requires Inv(c, s) && i < |s.waiting|
    ensures var t := Committed(c, s, i); var w := s.waiting[i]; var live := Live(Now(s), w.event.generation);
      && (t.waiting == s.waiting || t.waiting == Drop(s.waiting, i))
      && (!live ==> t.waiting == Drop(s.waiting, i))
      && (t.intoInbox != s.intoInbox || t.intoOutbox != s.intoOutbox ==> t.waiting == Drop(s.waiting, i))
      && t.stale == s.stale + (if w.target == ToOutbox && !live && !s.outboxClosed then 1 else 0)
  {
    hide Gated, BoxOk, WaitingOk, SentOk, Accounted, Conserved, PassedOn, GaveUpOk, Place, Drop;
  }

  /** A result that is withdrawn while it waits is stale. */
  lemma WithdrawnIsStale(c: Config, s: State, i: nat)
    requires Enabled(s, Withdraw(i))
    ensures var t := Next(c, s, Withdraw(i));
      && t.stale == s.stale + (if s.waiting[i].target == ToOutbox then 1 else 0)
      && t.withdrawn == s.withdrawn + [Withdrawal(s.waiting[i].event, Now(s))]
  {
    hide Drop;
  }

  /** What is sent during `steps` was sent under the generation that was current then. */
  lemma {:induction false} SendsAreCurrent(c: Config, s: State, steps: seq<Step>)
    requires Inv(c, s) && Execute(c, s, steps).Some?
    ensures var r := Execute(c, s, steps).value;
            && |s.sent| <= |r.sent|
            && (forall i :: 0 <= i < |s.sent| ==> r.sent[i] == s.sent[i])
            && (forall i :: |s.sent| <= i < |r.sent| && r.sent[i].scoped ==> s.generation <= r.sent[i].generation)
    decreases |steps|
  {
    hide Inv, PutNow, Committed;
    if steps != [] {
      NextKeeps(c, s, steps[0]);
      OnlySendSends(c, s, steps[0]);
      SendsAreCurrent(c, Next(c, s, steps[0]), steps[1..]);
    }
  }

  lemma OnlySendSends(c: Config, s: State, step: Step)
    requires Enabled(s, step)
    ensures Next(c, s, step).sent == s.sent
         || (&& step.Send?
             && Next(c, s, step).sent == s.sent + [s.outbox.queue[0].item]
             && (s.outbox.queue[0].item.scoped ==> s.generation <= s.outbox.queue[0].item.generation))
  {
    hide Offer;
  }

  /** The realtime stream: despite priorities and delays, turn output is sent in generation order, and
      once a replacement turn has been accepted nothing of an older turn is ever sent again. */
  lemma RealtimeStreamAdvances(c: Config, before: seq<Step>, after: seq<Step>)
    requires Execute(c, Init(), before).Some? && Execute(c, Execute(c, Init(), before).value, after).Some?
    ensures var s := Execute(c, Init(), before).value;
            var r := Execute(c, s, after).value;
            && (forall i, j :: 0 <= i < j < |r.sent| && r.sent[i].scoped && r.sent[j].scoped ==>
                  r.sent[i].generation <= r.sent[j].generation)
            && |s.sent| <= |r.sent|
            && (forall i :: |s.sent| <= i < |r.sent| && r.sent[i].scoped ==> s.generation <= r.sent[i].generation)
  {
    hide Gated, Accounted, Execute, BoxOk, WaitingOk;
    InitInv(c);
    RunKeeps(c, Init(), before);
    var s := Execute(c, Init(), before).value;
    RunKeeps(c, s, after);
    SendsAreCurrent(c, s, after);
  }
}
