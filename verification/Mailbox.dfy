/** The bounded priority mailbox, which keeps its entries unsorted, against the bounded list in
    delivery order that it stands for. */
module Mailbox {
  import opened Text
  import opened DeliveryOrder

  datatype Overflow = Reject | DropLowest | Coalesce

  datatype Outcome = Accepted | Coalesced | EvictedLowest | RejectedFull | Cancelled

  /** `Undecided` is a put that has to wait for capacity, `Closed` the mailbox-closed error. */
  datatype PutReply<T> = Closed | Undecided | Done(outcome: Outcome, item: T, displaced: Option<T>)

  datatype GetReply<T> = MustWait | Drained | Got(item: T)

  // ---- The reference: a bounded list in delivery order ----

  datatype Offered<T> = Offered(queue: seq<Entry<T>>, evicted: Option<Entry<T>>, taken: bool)

  /** Offer an entry to a bounded list; when it is full and `displace` holds, a strictly more important
      entry pushes out the last one. */
  function Offer<T>(q: seq<Entry<T>>, e: Entry<T>, capacity: nat, displace: bool): Offered<T> {
    if |q| < capacity then Offered(Place(q, e), None, true)
    else if displace && q != [] && e.priority > q[|q| - 1].priority then
      Offered(Place(q[..|q| - 1], e), Some(q[|q| - 1]), true)
    else Offered(q, None, false)
  }

  // ---- A run of puts without gets ----

  datatype Parcel<T> = Parcel(item: T, priority: int)

  function Values<T>(q: seq<Entry<T>>): seq<Parcel<T>> {
    if q == [] then [] else [Parcel(q[0].item, q[0].priority)] + Values(q[1..])
  }

  /** Stable insertion: behind everything at least as important. */
  function Settle<T>(q: seq<Parcel<T>>, x: Parcel<T>): seq<Parcel<T>> {
    if q == [] || x.priority > q[0].priority then [x] + q else [q[0]] + Settle(q[1..], x)
  }

  function StableSort<T>(xs: seq<Parcel<T>>): seq<Parcel<T>> {
    if xs == [] then [] else Settle(StableSort(xs[..|xs| - 1]), xs[|xs| - 1])
  }

  function Prefix<T>(s: seq<T>, n: nat): seq<T> {
    if |s| <= n then s else s[..n]
  }

  datatype Filled<T> = Filled(queue: seq<Entry<T>>, next: nat)

  /** Immediate puts, one after another, into an empty mailbox that drops its lowest entry. */
  function PutAll<T>(xs: seq<Parcel<T>>, capacity: nat): Filled<T> {
    if xs == [] then Filled([], 0)
    else
      var f := PutAll(xs[..|xs| - 1], capacity);
      var x := xs[|xs| - 1];
      var o := Offer(f.queue, Entry(x.item, x.priority, f.next), capacity, true);
      Filled(o.queue, if o.taken then f.next + 1 else f.next)
  }

  ghost predicate Descending<T>(s: seq<Parcel<T>>) {
    forall i, j :: 0 <= i < j < |s| ==> s[i].priority >= s[j].priority
  }

  lemma {:induction false} SettleDescending<T>(s: seq<Parcel<T>>, x: Parcel<T>)
    requires Descending(s)
    ensures Descending(Settle(s, x)) && |Settle(s, x)| == |s| + 1
    ensures forall i :: 0 <= i <= |s| ==> Settle(s, x)[i].priority <= (if s == [] || x.priority > s[0].priority then x.priority else s[0].priority)
  {
    if s != [] && x.priority <= s[0].priority {
      SettleDescending(s[1..], x);
    }
  }

  lemma {:induction false} StableSortDescending<T>(xs: seq<Parcel<T>>)
    ensures Descending(StableSort(xs)) && |StableSort(xs)| == |xs|
  {
    hide Settle;
    if xs != [] {
      StableSortDescending(xs[..|xs| - 1]);
      SettleDescending(StableSort(xs[..|xs| - 1]), xs[|xs| - 1]);
    }
  }

  /** The values of one priority, in their order. */
  function OfPriority<T>(xs: seq<Parcel<T>>, p: int): seq<Parcel<T>> {
    if xs == [] then [] else (if xs[0].priority == p then [xs[0]] else []) + OfPriority(xs[1..], p)
  }

  /** `r` is `xs` by descending priority, and within each priority in the order of `xs`. */
  ghost predicate IsStableSort<T>(xs: seq<Parcel<T>>, r: seq<Parcel<T>>) {
    && Descending(r) && multiset(r) == multiset(xs)
    && forall p: int :: OfPriority(r, p) == OfPriority(xs, p)
  }

  lemma {:induction false} OfPriorityConcat<T>(a: seq<Parcel<T>>, b: seq<Parcel<T>>, p: int)
    ensures OfPriority(a + b, p) == OfPriority(a, p) + OfPriority(b, p)
  {
    if a == [] {
      assert a + b == b;
    } else {
      assert (a + b)[1..] == a[1..] + b;
      OfPriorityConcat(a[1..], b, p);
    }
  }

  lemma {:induction false} NoneAbove<T>(s: seq<Parcel<T>>, p: int)
    requires Descending(s) && (s != [] ==> s[0].priority < p)
    ensures OfPriority(s, p) == []
  {
    if s != [] {
      TailDescending(s);
      NoneAbove(s[1..], p);
    }
  }

  lemma {:induction false} SettleIsStable<T>(s: seq<Parcel<T>>, x: Parcel<T>, p: int)
    requires Descending(s)
    ensures OfPriority(Settle(s, x), p) == OfPriority(s, p) + if x.priority == p then [x] else []
  {
    hide Descending;
    if s == [] || x.priority > s[0].priority {
      assert ([x] + s)[1..] == s;
      if x.priority == p {
        NoneAbove(s, p);
      }
    } else {
      TailDescending(s);
      SettleIsStable(s[1..], x, p);
      assert ([s[0]] + Settle(s[1..], x))[1..] == Settle(s[1..], x);
    }
  }

  lemma {:induction false} SettleKeeps<T>(s: seq<Parcel<T>>, x: Parcel<T>)
    ensures multiset(Settle(s, x)) == multiset(s) + multiset{x}
  {
    if s != [] && x.priority <= s[0].priority {
      SettleKeeps(s[1..], x);
      assert s == [s[0]] + s[1..];
    }
  }

  lemma {:induction false} StableSortIsStable<T>(xs: seq<Parcel<T>>)
    ensures IsStableSort(xs, StableSort(xs))
  {
    hide Settle, Descending, OfPriority;
    StableSortDescending(xs);
    if xs != [] {
      var n := |xs| - 1;
      var before, x := StableSort(xs[..n]), xs[n];
      StableSortIsStable(xs[..n]);
      assert xs == xs[..n] + [x];
      SettleKeeps(before, x);
      forall p: int ensures OfPriority(StableSort(xs), p) == OfPriority(xs, p) {
        SettleIsStable(before, x, p);
        OfPriorityConcat(xs[..n], [x], p);
        OfPriorityOne(x, p);
      }
    }
  }

  lemma OfPriorityOne<T>(x: Parcel<T>, p: int)
    ensures OfPriority([x], p) == if x.priority == p then [x] else []
  {
    assert [x][1..] == [];
  }

  /** What a bounded stable list does with one more value, on values alone. */
  function Bounded<T>(t: seq<Parcel<T>>, x: Parcel<T>, capacity: nat): seq<Parcel<T>> {
    if |t| < capacity then Settle(t, x)
    else if t != [] && x.priority > t[|t| - 1].priority then Settle(t[..|t| - 1], x)
    else t
  }

  lemma {:induction false} BoundedIsPrefix<T>(s: seq<Parcel<T>>, x: Parcel<T>, capacity: nat)
    requires Descending(s) && capacity > 0
    ensures Prefix(Settle(s, x), capacity) == Bounded(Prefix(s, capacity), x, capacity)
    decreases |s|
  {
    hide Settle, Prefix, Bounded, Descending;
    if |s| < capacity {
      RoomForAll(s, x, capacity);
    } else if x.priority > s[0].priority {
      NewHead(s, x, capacity);
    } else if capacity == 1 {
      SingleSlot(s, x);
    } else {
      TailDescending(s);
      BoundedIsPrefix(s[1..], x, capacity - 1);
      BoundedStep(s, x, capacity);
    }
  }

  lemma TailDescending<T>(s: seq<Parcel<T>>)
    requires Descending(s) && s != []
    ensures Descending(s[1..])
  {
  }

  lemma RoomForAll<T>(s: seq<Parcel<T>>, x: Parcel<T>, capacity: nat)
    requires Descending(s) && |s| < capacity
    ensures Prefix(Settle(s, x), capacity) == Bounded(Prefix(s, capacity), x, capacity)
  {
    SettleDescending(s, x);
  }

  lemma NewHead<T>(s: seq<Parcel<T>>, x: Parcel<T>, capacity: nat)
    requires Descending(s) && 0 < capacity <= |s| && x.priority > s[0].priority
    ensures Prefix(Settle(s, x), capacity) == Bounded(Prefix(s, capacity), x, capacity)
  {
    var t := Prefix(s, capacity);
    assert t == s[..capacity];
    assert ([x] + s)[..capacity] == [x] + s[..capacity - 1];
    assert t[..capacity - 1] == s[..capacity - 1];
  }

  lemma SingleSlot<T>(s: seq<Parcel<T>>, x: Parcel<T>)
    requires Descending(s) && s != [] && x.priority <= s[0].priority
    ensures Prefix(Settle(s, x), 1) == Bounded(Prefix(s, 1), x, 1)
  {
    assert Prefix(s, 1) == [s[0]];
    SettleDescending(s, x);
    assert Settle(s, x)[..1] == [s[0]];
  }

  lemma BoundedStep<T>(s: seq<Parcel<T>>, x: Parcel<T>, capacity: nat)
    requires Descending(s) && 1 < capacity <= |s| && x.priority <= s[0].priority
    requires Prefix(Settle(s[1..], x), capacity - 1) == Bounded(Prefix(s[1..], capacity - 1), x, capacity - 1)
    ensures Prefix(Settle(s, x), capacity) == Bounded(Prefix(s, capacity), x, capacity)
  {
    hide Settle, Prefix, Bounded, Descending;
    SettleBehind(s, x);
    PrefixCons(s[0], Settle(s[1..], x), capacity);
    assert s == [s[0]] + s[1..];
    PrefixCons(s[0], s[1..], capacity);
    PrefixLength(s[1..], capacity - 1);
    BoundedCons(s[0], Prefix(s[1..], capacity - 1), x, capacity);
  }

  lemma PrefixLength<T>(s: seq<T>, n: nat)
    requires n <= |s|
    ensures |Prefix(s, n)| == n
  {
  }

  lemma PrefixCons<T>(a: T, s: seq<T>, n: nat)
    requires n > 0
    ensures Prefix([a] + s, n) == [a] + Prefix(s, n - 1)
  {
  }

  lemma BoundedCons<T>(a: Parcel<T>, u: seq<Parcel<T>>, x: Parcel<T>, capacity: nat)
    requires |u| == capacity - 1 && u != [] && x.priority <= a.priority
    ensures Bounded([a] + u, x, capacity) == [a] + Bounded(u, x, capacity - 1)
  {
    hide Settle;
    var front := ([a] + u)[..|u|];
    assert front == [a] + u[..|u| - 1];
    SettleBehind(front, x);
    assert front[1..] == u[..|u| - 1];
  }

  lemma SettleBehind<T>(s: seq<Parcel<T>>, x: Parcel<T>)
    requires s != [] && x.priority <= s[0].priority
    ensures Settle(s, x) == [s[0]] + Settle(s[1..], x)
  {
  }

  /** Entries that arrived before `e` stay ahead of it within its priority. */
  lemma {:induction false} PlaceSettles<T>(q: seq<Entry<T>>, e: Entry<T>)
    requires forall i :: 0 <= i < |q| ==> q[i].order < e.order
    ensures Values(Place(q, e)) == Settle(Values(q), Parcel(e.item, e.priority))
  {
    if q == [] || Before(e, q[0]) {
      assert ([e] + q)[1..] == q;
    } else {
      PlaceSettles(q[1..], e);
      assert ([q[0]] + Place(q[1..], e))[1..] == Place(q[1..], e);
    }
  }

  lemma {:induction false} ValuesFront<T>(q: seq<Entry<T>>, n: nat)
    requires n <= |q|
    ensures |Values(q)| == |q| && Values(q[..n]) == Values(q)[..n]
    ensures forall i :: 0 <= i < |q| ==> Values(q)[i] == Parcel(q[i].item, q[i].priority)
  {
    if q != [] {
      ValuesFront(q[1..], if n > 0 then n - 1 else 0);
      if n > 0 { assert q[..n][1..] == q[1..][..n - 1]; }
    }
  }

  lemma OfferIsBounded<T(!new)>(q: seq<Entry<T>>, x: Parcel<T>, next: nat, capacity: nat)
    requires forall i :: 0 <= i < |q| ==> q[i].order < next
    ensures var o := Offer(q, Entry(x.item, x.priority, next), capacity, true);
            && Values(o.queue) == Bounded(Values(q), x, capacity)
            && (forall i :: 0 <= i < |o.queue| ==> o.queue[i].order < if o.taken then next + 1 else next)
  {
    hide Place, Values, Settle;
    var e := Entry(x.item, x.priority, next);
    ValuesFront(q, |q|);
    if |q| < capacity {
      PlaceSettles(q, e);
      PlaceBelow(q, e);
    } else if q != [] {
      ValuesFront(q, |q| - 1);
      PlaceSettles(q[..|q| - 1], e);
      PlaceBelow(q[..|q| - 1], e);
    }
  }

  lemma PlaceBelow<T(!new)>(q: seq<Entry<T>>, e: Entry<T>)
    requires forall i :: 0 <= i < |q| ==> q[i].order < e.order
    ensures forall i :: 0 <= i < |Place(q, e)| ==> Place(q, e)[i].order < e.order + 1
  {
    hide Place;
    PlaceEntries(q, e);
    forall i | 0 <= i < |Place(q, e)|
      ensures Place(q, e)[i].order < e.order + 1
    {
      assert Place(q, e)[i] in Place(q, e);
    }
  }

  /** A run of puts keeps exactly the first `capacity` values of the stable sort of what was put. */
  lemma PutAllKeepsBest<T(!new)>(xs: seq<Parcel<T>>, capacity: nat)
    requires capacity > 0
    ensures IsStableSort(xs, StableSort(xs))
    ensures Values(PutAll(xs, capacity).queue) == Prefix(StableSort(xs), capacity)
  {
    StableSortIsStable(xs);
    PutAllBounded(xs, capacity);
  }

  lemma {:induction false} PutAllBounded<T(!new)>(xs: seq<Parcel<T>>, capacity: nat)
    requires capacity > 0
    ensures Values(PutAll(xs, capacity).queue) == Prefix(StableSort(xs), capacity)
    ensures forall i :: 0 <= i < |PutAll(xs, capacity).queue| ==> PutAll(xs, capacity).queue[i].order < PutAll(xs, capacity).next
    decreases |xs|
  {
    hide Offer, Values, Settle, Prefix;
    if xs == [] {
      assert Values<T>([]) == [] by { ValuesFront<T>([], 0); }
      assert Prefix<Parcel<T>>([], capacity) == [] by { PrefixShort<Parcel<T>>([], capacity); }
    } else {
      var n := |xs| - 1;
      PutAllBounded(xs[..n], capacity);
      StableSortDescending(xs[..n]);
      BoundedIsPrefix(StableSort(xs[..n]), xs[n], capacity);
      OfferIsBounded(PutAll(xs[..n], capacity).queue, xs[n], PutAll(xs[..n], capacity).next, capacity);
    }
  }

  lemma PrefixShort<T>(s: seq<T>, n: nat)
    requires |s| <= n
    ensures Prefix(s, n) == s
  {
  }

  // ---- The mailbox ----

  /** The counters of `MailboxStats`. */
  datatype Stats = Stats(accepted: nat, dequeued: nat, coalesced: nat, rejected: nat, cancelled: nat, evicted: nat, discarded: nat)

  function Max(a: nat, b: nat): nat {
    if a < b then b else a
  }

  function One(b: bool): nat {
    if b then 1 else 0
  }

  class PriorityMailbox<T(!new)> {
    const capacity: nat
    const overflow: Overflow
    const priorityOf: T -> int
    const keyOf: T -> Option<string>
    const combine: (T, T) -> T
    var items: seq<Entry<T>>
    var nextOrder: nat
    var closed: bool
    var spaceAvailable: bool
    var accepted: nat
    var dequeued: nat
    var coalesced: nat
    var rejected: nat
    var cancelled: nat
    var evicted: nat
    var discarded: nat
    var highWatermark: nat

    /** The entries in the order they will be delivered. */
    ghost function Queue(): seq<Entry<T>>
      reads this
    {
      Delivery(items)
    }

    function Counters(): Stats
      reads this
    {
      Stats(accepted, dequeued, coalesced, rejected, cancelled, evicted, discarded)
    }

    /** Bounds, bookkeeping and the space flag: nothing accepted is ever lost track of. */
    ghost predicate Valid()
      reads this
    {
      && capacity >= 1 && |items| <= capacity
      && Arrived(items, nextOrder)
      && accepted == dequeued + coalesced + evicted + discarded + |items|
      && |items| <= highWatermark <= capacity
      && (!closed ==> (spaceAvailable <==> |items| < capacity))
    }

    constructor (capacity: nat, overflow: Overflow, priorityOf: T -> int, keyOf: T -> Option<string>, combine: (T, T) -> T)
      requires capacity >= 1
      ensures Valid() && Queue() == [] && !closed && nextOrder == 0 && Counters() == Stats(0, 0, 0, 0, 0, 0, 0)
      ensures this.capacity == capacity && this.overflow == overflow
      ensures this.priorityOf == priorityOf && this.keyOf == keyOf && this.combine == combine
    {
      this.capacity, this.overflow := capacity, overflow;
      this.priorityOf, this.keyOf, this.combine := priorityOf, keyOf, combine;
      items, nextOrder, closed, spaceAvailable := [], 0, false, true;
      accepted, dequeued, coalesced, rejected, cancelled, evicted, discarded, highWatermark := 0, 0, 0, 0, 0, 0, 0, 0;
    }

    /** The position of the entry delivered first. */
    method FindFirst() returns (best: nat)
      requires Valid() && items != []
      ensures best < |items|
      ensures forall k :: 0 <= k < |items| && k != best ==> Before(items[best], items[k])
    {
      best := 0;
      var i := 1;
      while i < |items|
        invariant 1 <= i <= |items| && best < i
        invariant forall k :: 0 <= k < i && k != best ==> Before(items[best], items[k])
      {
        if items[i].priority > items[best].priority { best := i; }
        i := i + 1;
      }
    }

    /** The position of the newest entry of the lowest priority. */
    method FindLowest() returns (worst: nat)
      requires Valid() && items != []
      ensures worst < |items|
      ensures forall k :: 0 <= k < |items| && k != worst ==> Before(items[k], items[worst])
    {
      worst := 0;
      var i := 1;
      while i < |items|
        invariant 1 <= i <= |items| && worst < i
        invariant forall k :: 0 <= k < i && k != worst ==> Before(items[k], items[worst])
      {
        if items[i].priority <= items[worst].priority { worst := i; }
        i := i + 1;
      }
    }

    /** The oldest entry with the same key, if the item has one. */
    method FindMatch(item: T) returns (found: Option<nat>)
      ensures found == if keyOf(item).Some? then OldestMatch(items, keyOf, keyOf(item), 0) else None
    {
      var key := keyOf(item);
      if key.None? { return None; }
      var i := 0;
      while i < |items|
        invariant 0 <= i <= |items|
        invariant OldestMatch(items, keyOf, key, i) == OldestMatch(items, keyOf, key, 0)
      {
        if keyOf(items[i].item) == key { return Some(i); }
        i := i + 1;
      }
      return None;
    }

    /** `get`, once it holds the lock: the head of the queue, or wait, or report that nothing will come. */
    method Get() returns (reply: GetReply<T>)
      requires Valid()
      modifies this
      ensures Valid() && closed == old(closed)
      ensures old(items) == [] ==> reply == (if old(closed) then Drained else MustWait) && items == []
      ensures old(items) != [] ==>
                && old(Queue()) != [] && reply == Got(old(Queue())[0].item)
                && Queue() == old(Queue())[1..]
      ensures Counters() == old(Counters()).(dequeued := old(dequeued) + One(old(items) != []))
      ensures nextOrder == old(nextOrder)
    {
      hide Delivery, Before;
      if items == [] {
        reply := if closed then Drained else MustWait;
        return;
      }
      var index := FindFirst();
      RemoveFirst(items, nextOrder, index);
      ArrivedWithout(items, nextOrder, index);
      reply := Got(items[index].item);
      items := Without(items, index);
      dequeued := dequeued + 1;
      spaceAvailable := true;
    }

    /** `close`; discarded items are returned in delivery order. */
    method Close(discard: bool) returns (dropped: seq<T>)
      requires Valid()
      modifies this
      ensures Valid() && closed
      ensures discard ==> items == [] && |dropped| == |old(Queue())|
      ensures discard ==> forall i :: 0 <= i < |dropped| ==> dropped[i] == old(Queue())[i].item
      ensures !discard ==> dropped == [] && items == old(items)
      ensures Counters() == old(Counters()).(discarded := old(discarded) + |dropped|) && nextOrder == old(nextOrder)
    {
      hide Delivery;
      dropped := [];
      ArrivedDistinct(items, nextOrder);
      DeliveryEntries(items);
      if discard {
        var ordered := Delivery(items);
        dropped := seq(|ordered|, i requires 0 <= i < |ordered| => ordered[i].item);
        discarded := discarded + |dropped|;
        items := [];
      }
      closed, spaceAvailable := true, true;
    }

    method Append(item: T, priority: int)
      requires Valid() && |items| < capacity && !closed
      modifies this
      ensures Valid() && closed == old(closed) && nextOrder == old(nextOrder) + 1
      ensures Queue() == Place(old(Queue()), Entry(item, priority, old(nextOrder)))
      ensures Counters() == old(Counters()).(accepted := old(accepted) + 1)
      ensures highWatermark == Max(old(highWatermark), |items|)
    {
      hide Before, Place;
      var entry := Entry(item, priority, nextOrder);
      AppendPlaces(items, entry);
      items := items + [entry];
      nextOrder := nextOrder + 1;
      accepted := accepted + 1;
      if |items| > highWatermark { highWatermark := |items|; }
      if |items| >= capacity { spaceAvailable := false; }
    }

    method Evict() returns (displaced: T)
      requires Valid() && items != [] && !closed
      modifies this
      ensures Valid() && closed == old(closed) && nextOrder == old(nextOrder) && |items| == |old(items)| - 1
      ensures old(Queue()) != [] && displaced == old(Queue())[|old(Queue())| - 1].item
      ensures Queue() == old(Queue())[..|old(Queue())| - 1]
      ensures Counters() == old(Counters()).(evicted := old(evicted) + 1) && highWatermark == old(highWatermark)
    {
      hide Before, Delivery;
      var index := FindLowest();
      RemoveLast(items, nextOrder, index);
      ArrivedWithout(items, nextOrder, index);
      displaced := items[index].item;
      items := Without(items, index);
      evicted := evicted + 1;
      spaceAvailable := true;
    }

    /** Merge into a pending entry, which keeps its arrival number. */
    method Merge(index: nat, item: T) returns (combined: T, previous: T)
      requires Valid() && index < |items| && !closed
      modifies this
      ensures Valid() && closed == old(closed) && nextOrder == old(nextOrder)
      ensures previous == old(items)[index].item && combined == combine(previous, item)
      ensures Queue() == Place(Delivery(Without(old(items), index)), Entry(combined, priorityOf(combined), old(items)[index].order))
      ensures Counters() == old(Counters()).(accepted := old(accepted) + 1, coalesced := old(coalesced) + 1)
      ensures highWatermark == old(highWatermark) && |items| == |old(items)|
    {
      hide Before, Delivery, Place, Without;
      previous := items[index].item;
      combined := combine(previous, item);
      var entry := Entry(combined, priorityOf(combined), items[index].order);
      ReplaceOne(items, nextOrder, index, entry);
      items := items[index := entry];
      accepted := accepted + 1;
      coalesced := coalesced + 1;
    }

    /** The end of `_try_put_locked`, where only capacity decides: exactly what the bounded list does. */
    method OfferNow(item: T, displace: bool, rejectWhenFull: bool) returns (reply: PutReply<T>)
      requires Valid() && !closed
      modifies this
      ensures Valid() && !closed
      ensures var o := Offer(old(Queue()), Entry(item, priorityOf(item), old(nextOrder)), capacity, displace);
              && Queue() == o.queue && reply == ReplyTo(o, item, rejectWhenFull)
              && nextOrder == old(nextOrder) + One(o.taken)
              && Counters() == Offering(old(Counters()), o, rejectWhenFull)
      ensures highWatermark == Max(old(highWatermark), |items|)
      ensures !reply.Done? || reply.outcome == RejectedFull ==> items == old(items)
    {
      hide Before, Delivery, Place;
      ArrivedDistinct(items, nextOrder);
      DeliveryEntries(items);
      var priority := priorityOf(item);
      if |items| < capacity {
        Append(item, priority);
        return Done(Accepted, item, None);
      }
      if displace {
        var lowest := FindLowest();
        RemoveLast(items, nextOrder, lowest);
        if priority > items[lowest].priority {
          var displaced := Evict();
          Append(item, priority);
          return Done(EvictedLowest, item, Some(displaced));
        }
      }
      if rejectWhenFull {
        rejected := rejected + 1;
        return Done(RejectedFull, item, None);
      }
      return Undecided;
    }

    /** Whether a put of `item` merges into a pending entry, and into which. */
    ghost function Target(item: T): Option<nat>
      reads this
    {
      if overflow == Coalesce && keyOf(item).Some? then OldestMatch(items, keyOf, keyOf(item), 0) else None
    }

    /** `_try_put_locked`: `acceptIf` is the answer of the commit check, if there is one. */
    method TryPut(item: T, rejectWhenFull: bool, acceptIf: Option<bool>, allowDisplacement: bool) returns (reply: PutReply<T>)
      requires Valid()
      modifies this
      ensures Valid() && closed == old(closed)
      ensures old(closed) ==> reply == Closed && items == old(items) && nextOrder == old(nextOrder) && Counters() == old(Counters())
      ensures !old(closed) && acceptIf == Some(false) ==>
                && reply == Done(Cancelled, item, None) && items == old(items) && nextOrder == old(nextOrder)
                && Counters() == old(Counters()).(cancelled := old(cancelled) + 1)
      ensures highWatermark == Max(old(highWatermark), |items|)
      ensures !old(closed) && acceptIf != Some(false) && old(Target(item)).Some? ==>
                var target := old(items)[old(Target(item)).value];
                var combined := combine(target.item, item);
                && reply == Done(Coalesced, combined, Some(target.item))
                && Queue() == Place(Delivery(Without(old(items), old(Target(item)).value)),
                                    Entry(combined, priorityOf(combined), target.order))
                && nextOrder == old(nextOrder)
                && Counters() == old(Counters()).(accepted := old(accepted) + 1, coalesced := old(coalesced) + 1)
      ensures !old(closed) && acceptIf != Some(false) && old(Target(item)).None? ==>
                var o := Offer(old(Queue()), Entry(item, priorityOf(item), old(nextOrder)), capacity,
                               overflow == DropLowest && allowDisplacement);
                && Queue() == o.queue && reply == ReplyTo(o, item, rejectWhenFull)
                && nextOrder == old(nextOrder) + One(o.taken)
                && Counters() == Offering(old(Counters()), o, rejectWhenFull)
    {
      hide Before, Delivery, Place, Offer, Without;
      if closed { return Closed; }
      if acceptIf == Some(false) {
        cancelled := cancelled + 1;
        return Done(Cancelled, item, None);
      }
      if overflow == Coalesce {
        var index := FindMatch(item);
        if index.Some? {
          var combined, previous := Merge(index.value, item);
          return Done(Coalesced, combined, Some(previous));
        }
      }
      reply := OfferNow(item, overflow == DropLowest && allowDisplacement, rejectWhenFull);
    }
  }

  /** How an offer is counted. */
  function Offering<T>(c: Stats, o: Offered<T>, rejectWhenFull: bool): Stats {
    c.(accepted := c.accepted + One(o.taken), evicted := c.evicted + One(o.evicted.Some?),
       rejected := c.rejected + One(!o.taken && rejectWhenFull))
  }

  function Parcels<T>(xs: seq<T>, priorityOf: T -> int): (ps: seq<Parcel<T>>)
    ensures |ps| == |xs| && forall i | 0 <= i < |xs| :: ps[i] == Parcel(xs[i], priorityOf(xs[i]))
  {
    seq(|xs|, i requires 0 <= i < |xs| => Parcel(xs[i], priorityOf(xs[i])))
  }

  /** A run of `put` calls, without a `get`, on a new mailbox that drops its lowest entry: it holds exactly
      the first `capacity` items of the stable sort, and the counters tell how often it was full. */
  method PutEach<T(!new)>(xs: seq<T>, capacity: nat, priorityOf: T -> int, keyOf: T -> Option<string>, combine: (T, T) -> T)
    returns (box: PriorityMailbox<T>)
    requires capacity >= 1
    ensures fresh(box) && box.Valid() && !box.closed && box.capacity == capacity
    ensures Values(box.Queue()) == Prefix(StableSort(Parcels(xs, priorityOf)), capacity)
    ensures IsStableSort(Parcels(xs, priorityOf), StableSort(Parcels(xs, priorityOf)))
    ensures box.accepted + box.rejected == |xs| && box.accepted == box.evicted + |box.items|
  {
    hide Offer, StableSort, Values, Prefix, IsStableSort, Delivery, Place;
    box := new PriorityMailbox<T>(capacity, DropLowest, priorityOf, keyOf, combine);
    ghost var ps := Parcels(xs, priorityOf);
    assert PutAll(ps[..0], capacity) == Filled([], 0) by { assert ps[..0] == []; }
    var i := 0;
    while i < |xs|
      invariant 0 <= i <= |xs|
      invariant box.Valid() && !box.closed && box.capacity == capacity && box.overflow == DropLowest && box.priorityOf == priorityOf
      invariant PutAll(ps[..i], capacity) == Filled(box.Queue(), box.nextOrder)
      invariant box.Counters() == Stats(box.accepted, 0, 0, box.rejected, 0, box.evicted, 0) && box.accepted + box.rejected == i
    {
      PutAllStep(ps, i, capacity);
      var reply := box.TryPut(xs[i], true, None, true);
      i := i + 1;
    }
    assert ps[..i] == ps;
    PutAllKeepsBest(ps, capacity);
  }

  lemma PutAllStep<T>(ps: seq<Parcel<T>>, i: nat, capacity: nat)
    requires i < |ps|
    ensures var f := PutAll(ps[..i], capacity); var o := Offer(f.queue, Entry(ps[i].item, ps[i].priority, f.next), capacity, true);
      PutAll(ps[..i + 1], capacity) == Filled(o.queue, if o.taken then f.next + 1 else f.next)
  {
    hide Offer;
    assert ps[..i + 1][..i] == ps[..i] && ps[..i + 1][i] == ps[i];
  }

  function ReplyTo<T>(o: Offered<T>, item: T, rejectWhenFull: bool): PutReply<T> {
    if o.taken then
      if o.evicted.None? then Done(Accepted, item, None) else Done(EvictedLowest, item, Some(o.evicted.value.item))
    else if rejectWhenFull then Done(RejectedFull, item, None)
    else Undecided
  }

  /** The first entry from `from` on whose item has the key. */
  function OldestMatch<T>(items: seq<Entry<T>>, keyOf: T -> Option<string>, key: Option<string>, from: nat): (r: Option<nat>)
    ensures r.Some? ==> from <= r.value < |items| && keyOf(items[r.value].item) == key
    ensures forall k | from <= k < (if r.Some? then r.value else |items|) :: keyOf(items[k].item) != key
    decreases |items| - from
  {
    if from >= |items| then None
    else if keyOf(items[from].item) == key then Some(from)
    else OldestMatch(items, keyOf, key, from + 1)
  }

  lemma AppendPlaces<T>(items: seq<Entry<T>>, e: Entry<T>)
    ensures Delivery(items + [e]) == Place(Delivery(items), e)
  {
    assert (items + [e])[..|items|] == items;
  }
}
