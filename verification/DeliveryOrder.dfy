/** The reference for the priority mailbox: a bounded list sorted by priority, highest first, and by
    arrival within a priority. */
module DeliveryOrder {

  datatype Entry<T> = Entry(item: T, priority: int, order: nat)

  /** `a` is delivered before `b`. */
  predicate Before<T>(a: Entry<T>, b: Entry<T>) {
    a.priority > b.priority || (a.priority == b.priority && a.order < b.order)
  }

  ghost predicate Ordered<T>(q: seq<Entry<T>>) {
    forall i, j :: 0 <= i < j < |q| ==> Before(q[i], q[j])
  }

  /** Insert an entry where it belongs. */
  function Place<T>(q: seq<Entry<T>>, e: Entry<T>): seq<Entry<T>> {
    if q == [] || Before(e, q[0]) then [e] + q else [q[0]] + Place(q[1..], e)
  }

  /** The list in delivery order of entries kept in any order. */
  function Delivery<T>(items: seq<Entry<T>>): seq<Entry<T>> {
    if items == [] then [] else Place(Delivery(items[..|items| - 1]), items[|items| - 1])
  }

  ghost predicate SameEntries<T(!new)>(a: seq<Entry<T>>, b: seq<Entry<T>>) {
    forall e :: e in a <==> e in b
  }

  /** Orders are unique, so entries are comparable. */
  ghost predicate DistinctOrders<T>(items: seq<Entry<T>>) {
    forall i, j :: 0 <= i < j < |items| ==> items[i].order != items[j].order
  }

  lemma {:induction false} PlaceEntries<T(!new)>(q: seq<Entry<T>>, e: Entry<T>)
    ensures |Place(q, e)| == |q| + 1
    ensures forall x :: x in Place(q, e) <==> x == e || x in q
  {
    hide Before;
    if q != [] && !Before(e, q[0]) {
      PlaceEntries(q[1..], e);
    }
  }

  lemma {:induction false} PlaceOrdered<T(!new)>(q: seq<Entry<T>>, e: Entry<T>)
    requires Ordered(q) && forall x :: x in q ==> x.order != e.order
    ensures Ordered(Place(q, e))
  {
    if q != [] && !Before(e, q[0]) {
      OrderedTail(q);
      PlaceOrdered(q[1..], e);
      PlaceEntries(q[1..], e);
      PlaceFirst(q, e);
    }
  }

  lemma OrderedTail<T>(q: seq<Entry<T>>)
    requires Ordered(q) && q != []
    ensures Ordered(q[1..])
  {
  }

  lemma PlaceFirst<T(!new)>(q: seq<Entry<T>>, e: Entry<T>)
    requires Ordered(q) && q != [] && !Before(e, q[0]) && e.order != q[0].order
    requires Ordered(Place(q[1..], e)) && forall x :: x in Place(q[1..], e) <==> x == e || x in q[1..]
    ensures Ordered([q[0]] + Place(q[1..], e))
  {
    hide Place;
    var rest := Place(q[1..], e);
    forall j | 0 <= j < |rest|
      ensures Before(q[0], rest[j])
    {
      assert rest[j] in rest;
      if rest[j] != e { assert rest[j] in q[1..]; }
    }
  }

  lemma {:induction false} DeliveryEntries<T(!new)>(items: seq<Entry<T>>)
    requires DistinctOrders(items)
    ensures |Delivery(items)| == |items| && SameEntries(Delivery(items), items) && Ordered(Delivery(items))
  {
    hide Place, Ordered;
    if items == [] {
      assert Ordered<T>([]) by { EmptyOrdered<T>(); }
    } else {
      var n := |items| - 1;
      DeliveryEntries(items[..n]);
      PlaceEntries(Delivery(items[..n]), items[n]);
      forall x | x in Delivery(items[..n])
        ensures x.order != items[n].order
      {
        assert x in items[..n];
      }
      PlaceOrdered(Delivery(items[..n]), items[n]);
    }
  }

  lemma EmptyOrdered<T>()
    ensures Ordered<T>([])
  {
  }

  /** A delivery list is determined by its entries. */
  lemma {:induction false} OrderedUnique<T(!new)>(a: seq<Entry<T>>, b: seq<Entry<T>>)
    requires Ordered(a) && Ordered(b) && SameEntries(a, b) && |a| == |b|
    ensures a == b
  {
    if a != [] {
      HeadsAgree(a, b);
      TailsAgree(a, b);
      OrderedUnique(a[1..], b[1..]);
      assert a == [a[0]] + a[1..] && b == [b[0]] + b[1..];
    }
  }

  lemma HeadsAgree<T(!new)>(a: seq<Entry<T>>, b: seq<Entry<T>>)
    requires Ordered(a) && Ordered(b) && SameEntries(a, b) && a != [] && b != []
    ensures a[0] == b[0]
  {
    assert a[0] in b && b[0] in a;
    var i :| 0 <= i < |b| && b[i] == a[0];
    var j :| 0 <= j < |a| && a[j] == b[0];
  }

  lemma TailsAgree<T(!new)>(a: seq<Entry<T>>, b: seq<Entry<T>>)
    requires Ordered(a) && Ordered(b) && SameEntries(a, b) && a != [] && b != [] && a[0] == b[0]
    ensures SameEntries(a[1..], b[1..]) && Ordered(a[1..]) && Ordered(b[1..])
  {
    forall e
      ensures e in a[1..] <==> e in b[1..]
    {
      TailWithoutHead(a, e);
      TailWithoutHead(b, e);
    }
  }

  lemma TailWithoutHead<T>(q: seq<Entry<T>>, e: Entry<T>)
    requires Ordered(q) && q != []
    ensures e in q[1..] <==> e in q && e != q[0]
  {
  }

  // ---- Keeping the entries unsorted ----

  /** `items` in arrival order, all numbered below `next`. */
  ghost predicate Arrived<T>(items: seq<Entry<T>>, next: nat) {
    && (forall i, j :: 0 <= i < j < |items| ==> items[i].order < items[j].order)
    && (forall i :: 0 <= i < |items| ==> items[i].order < next)
  }

  function Without<T>(s: seq<T>, i: nat): seq<T>
    requires i < |s|
  {
    s[..i] + s[i + 1..]
  }

  lemma WithoutEntry<T(!new)>(items: seq<Entry<T>>, i: nat, e: Entry<T>)
    requires i < |items| && DistinctOrders(items)
    ensures e in Without(items, i) <==> e in items && e != items[i]
  {
    if e in items && e != items[i] {
      var k :| 0 <= k < |items| && items[k] == e;
      if k < i { assert Without(items, i)[k] == e; } else { assert Without(items, i)[k - 1] == e; }
    }
  }

  lemma ArrivedWithout<T>(items: seq<Entry<T>>, next: nat, i: nat)
    requires Arrived(items, next) && i < |items|
    ensures Arrived(Without(items, i), next) && |Without(items, i)| == |items| - 1
  {
  }

  lemma ArrivedDistinct<T>(items: seq<Entry<T>>, next: nat)
    requires Arrived(items, next)
    ensures DistinctOrders(items)
  {
  }

  /** Removing the best entry takes the head off the delivery list. */
  lemma RemoveFirst<T(!new)>(items: seq<Entry<T>>, next: nat, i: nat)
    requires Arrived(items, next) && i < |items|
    requires forall k :: 0 <= k < |items| && k != i ==> Before(items[i], items[k])
    ensures Delivery(items) != [] && Delivery(items)[0] == items[i]
    ensures Delivery(Without(items, i)) == Delivery(items)[1..]
  {
    hide Delivery, Without, Before;
    ArrivedDistinct(items, next);
    ArrivedWithout(items, next, i);
    ArrivedDistinct(Without(items, i), next);
    DeliveryEntries(items);
    DeliveryEntries(Without(items, i));
    var q, r := Delivery(items), Delivery(Without(items, i));
    BestIsFirst(items, q, i);
    OrderedTail(q);
    forall e
      ensures e in q[1..] <==> e in r
    {
      TailWithoutHead(q, e);
      WithoutEntry(items, i, e);
    }
    OrderedUnique(q[1..], r);
  }

  lemma BestIsFirst<T(!new)>(items: seq<Entry<T>>, q: seq<Entry<T>>, i: nat)
    requires i < |items| && Ordered(q) && SameEntries(q, items) && |q| == |items|
    requires forall k :: 0 <= k < |items| && k != i ==> Before(items[i], items[k])
    ensures q[0] == items[i]
  {
    assert items[i] in q;
    var j :| 0 <= j < |q| && q[j] == items[i];
    assert q[0] in items;
    var k :| 0 <= k < |items| && items[k] == q[0];
  }

  /** Removing the worst entry takes the last off the delivery list. */
  lemma RemoveLast<T(!new)>(items: seq<Entry<T>>, next: nat, i: nat)
    requires Arrived(items, next) && i < |items|
    requires forall k :: 0 <= k < |items| && k != i ==> Before(items[k], items[i])
    ensures Delivery(items) != [] && Delivery(items)[|Delivery(items)| - 1] == items[i]
    ensures Delivery(Without(items, i)) == Delivery(items)[..|Delivery(items)| - 1]
  {
    hide Delivery, Without, Before;
    ArrivedDistinct(items, next);
    ArrivedWithout(items, next, i);
    ArrivedDistinct(Without(items, i), next);
    DeliveryEntries(items);
    DeliveryEntries(Without(items, i));
    var q, r := Delivery(items), Delivery(Without(items, i));
    var n := |q| - 1;
    WorstIsLast(items, q, i);
    forall e
      ensures e in q[..n] <==> e in r
    {
      FrontWithoutLast(q, e);
      WithoutEntry(items, i, e);
    }
    assert Ordered(q[..n]);
    OrderedUnique(q[..n], r);
  }

  lemma WorstIsLast<T(!new)>(items: seq<Entry<T>>, q: seq<Entry<T>>, i: nat)
    requires i < |items| && Ordered(q) && SameEntries(q, items) && |q| == |items|
    requires forall k :: 0 <= k < |items| && k != i ==> Before(items[k], items[i])
    ensures q[|q| - 1] == items[i]
  {
    assert items[i] in q;
    var j :| 0 <= j < |q| && q[j] == items[i];
    var last := q[|q| - 1];
    assert last in q && last in items;
    var k :| 0 <= k < |items| && items[k] == last;
  }

  lemma FrontWithoutLast<T>(q: seq<Entry<T>>, e: Entry<T>)
    requires Ordered(q) && q != []
    ensures e in q[..|q| - 1] <==> e in q && e != q[|q| - 1]
  {
  }

  /** Changing an entry in place, its arrival number kept, moves it to where its new priority belongs. */
  lemma ReplaceOne<T(!new)>(items: seq<Entry<T>>, next: nat, i: nat, e: Entry<T>)
    requires Arrived(items, next) && i < |items| && e.order == items[i].order
    ensures Arrived(items[i := e], next)
    ensures Delivery(items[i := e]) == Place(Delivery(Without(items, i)), e)
  {
    hide Delivery, Without, Before, Place;
    var changed, rest := items[i := e], Without(items, i);
    ArrivedDistinct(changed, next);
    ArrivedWithout(items, next, i);
    ArrivedDistinct(rest, next);
    DeliveryEntries(changed);
    DeliveryEntries(rest);
    var q := Delivery(rest);
    PlaceEntries(q, e);
    NoSuchOrder(items, next, i, q);
    PlaceOrdered(q, e);
    forall x
      ensures x in Delivery(changed) <==> x in Place(q, e)
    {
      ReplacedEntry(items, next, i, e, x);
    }
    OrderedUnique(Delivery(changed), Place(q, e));
  }

  lemma NoSuchOrder<T(!new)>(items: seq<Entry<T>>, next: nat, i: nat, q: seq<Entry<T>>)
    requires Arrived(items, next) && i < |items| && SameEntries(q, Without(items, i))
    ensures forall x :: x in q ==> x.order != items[i].order
  {
    forall x | x in q
      ensures x.order != items[i].order
    {
      ArrivedDistinct(items, next);
      WithoutEntry(items, i, x);
    }
  }

  lemma ReplacedEntry<T(!new)>(items: seq<Entry<T>>, next: nat, i: nat, e: Entry<T>, x: Entry<T>)
    requires Arrived(items, next) && i < |items| && e.order == items[i].order
    ensures x in items[i := e] <==> x == e || x in Without(items, i)
  {
    ArrivedDistinct(items, next);
    WithoutEntry(items, i, x);
    assert items[i := e][i] == e;
    if x in items && x != items[i] {
      var k :| 0 <= k < |items| && items[k] == x;
      assert items[i := e][k] == x;
    }
  }
}
