/** Stable sorting by a rank, a descending priority and an identifier. */
module Ranking {

  /** Strings compare by code point. */
  predicate TextBefore(a: string, b: string) {
    a == "" || (b != "" && (a[0] < b[0] || (a[0] == b[0] && TextBefore(a[1..], b[1..]))))
  }

  lemma {:induction false} TextTotal(a: string, b: string)
    ensures TextBefore(a, b) || TextBefore(b, a)
  {
    if a != "" && b != "" && a[0] == b[0] {
      TextTotal(a[1..], b[1..]);
    }
  }

  lemma {:induction false} TextTransitive(a: string, b: string, c: string)
    requires TextBefore(a, b) && TextBefore(b, c)
    ensures TextBefore(a, c)
  {
    if a != "" && a[0] == b[0] == c[0] {
      TextTransitive(a[1..], b[1..], c[1..]);
    }
  }

  lemma {:induction false} TextAntisymmetric(a: string, b: string)
    requires TextBefore(a, b) && TextBefore(b, a)
    ensures a == b
  {
    if a != "" {
      TextAntisymmetric(a[1..], b[1..]);
      assert a == [a[0]] + a[1..] && b == [b[0]] + b[1..];
    }
  }

  /** Where `a` and `b` first differ, if neither starts the other. */
  predicate DifferAt(a: string, b: string, k: nat) {
    k < |a| && k < |b| && a[..k] == b[..k] && a[k] != b[k]
  }

  lemma FirstShared(a: string, b: string, k: nat)
    requires DifferAt(a, b, k)
    ensures k > 0 ==> a[0] == b[0]
  {
    if k > 0 {
      assert a[..k][0] == b[..k][0];
    }
  }

  /** The order of a dictionary: a text that starts another comes first, and otherwise the first difference
      decides. */
  lemma {:induction false} TextBeforeExactly(a: string, b: string)
    ensures a <= b ==> TextBefore(a, b)
    ensures forall k: nat | DifferAt(a, b, k) :: TextBefore(a, b) <==> a[k] < b[k]
  {
    if a != "" && b != "" && a[0] == b[0] {
      var x, y := a[1..], b[1..];
      TextBeforeExactly(x, y);
      forall k: nat | DifferAt(a, b, k) ensures TextBefore(a, b) <==> a[k] < b[k] {
        assert a[..k][1..] == x[..k - 1] && b[..k][1..] == y[..k - 1];
        assert DifferAt(x, y, k - 1);
      }
    } else {
      forall k: nat | DifferAt(a, b, k) ensures k == 0 {
        FirstShared(a, b, k);
      }
    }
  }

  datatype Key = Key(rank: int, priority: int, id: string)

  predicate Before(a: Key, b: Key) {
    || a.rank < b.rank
    || (a.rank == b.rank && a.priority > b.priority)
    || (a.rank == b.rank && a.priority == b.priority && TextBefore(a.id, b.id))
  }

  lemma BeforeTotal(a: Key, b: Key)
    ensures Before(a, b) || Before(b, a)
  {
    TextTotal(a.id, b.id);
  }

  lemma BeforeTransitive(a: Key, b: Key, c: Key)
    requires Before(a, b) && Before(b, c)
    ensures Before(a, c)
  {
    hide TextBefore;
    if TextBefore(a.id, b.id) && TextBefore(b.id, c.id) {
      TextTransitive(a.id, b.id, c.id);
    }
  }

  lemma BeforeAntisymmetric(a: Key, b: Key)
    requires Before(a, b) && Before(b, a)
    ensures a == b
  {
    hide TextBefore;
    TextAntisymmetric(a.id, b.id);
  }

  /** Insert behind everything that may stand before `x`. */
  function Insert<T>(key: T -> Key, s: seq<T>, x: T): seq<T> {
    if s == [] || Before(key(s[|s| - 1]), key(x)) then s + [x]
    else Insert(key, s[..|s| - 1], x) + [s[|s| - 1]]
  }

  function Sort<T>(key: T -> Key, s: seq<T>): seq<T> {
    if s == [] then [] else Insert(key, Sort(key, s[..|s| - 1]), s[|s| - 1])
  }

  ghost predicate Sorted<T>(key: T -> Key, s: seq<T>) {
    forall i, j | 0 <= i < j < |s| :: Before(key(s[i]), key(s[j]))
  }

  lemma SplitLast<T>(s: seq<T>)
    requires s != []
    ensures s == s[..|s| - 1] + [s[|s| - 1]]
    ensures multiset(s) == multiset(s[..|s| - 1]) + multiset{s[|s| - 1]}
  {
    var n := |s| - 1;
    assert s == s[..n] + [s[n]];
  }

  lemma {:induction false} InsertKeeps<T>(key: T -> Key, s: seq<T>, x: T)
    ensures multiset(Insert(key, s, x)) == multiset(s) + multiset{x}
  {
    hide Before;
    if s != [] && !Before(key(s[|s| - 1]), key(x)) {
      var n := |s| - 1;
      InsertKeeps(key, s[..n], x);
      SplitLast(s);
    }
  }

  lemma {:induction false} SortKeeps<T>(key: T -> Key, s: seq<T>)
    ensures multiset(Sort(key, s)) == multiset(s)
  {
    hide Insert;
    if s != [] {
      var n := |s| - 1;
      SortKeeps(key, s[..n]);
      InsertKeeps(key, Sort(key, s[..n]), s[n]);
      SplitLast(s);
    }
  }

  lemma SortedPrefix<T>(key: T -> Key, s: seq<T>)
    requires Sorted(key, s) && s != []
    ensures Sorted(key, s[..|s| - 1])
    ensures forall i | 0 <= i < |s| - 1 :: Before(key(s[i]), key(s[|s| - 1]))
  {
    hide Before;
  }

  lemma SortedAppend<T>(key: T -> Key, s: seq<T>, x: T)
    requires Sorted(key, s) && forall i | 0 <= i < |s| :: Before(key(s[i]), key(x))
    ensures Sorted(key, s + [x])
  {
    hide Before;
  }

  /** Membership through multisets: what an insertion holds is the old elements and the new one. */
  lemma InsertMembers<T>(key: T -> Key, s: seq<T>, x: T, i: nat)
    requires i < |Insert(key, s, x)|
    ensures Insert(key, s, x)[i] == x || Insert(key, s, x)[i] in s
  {
    hide Insert;
    var r := Insert(key, s, x);
    InsertKeeps(key, s, x);
    assert r[i] in multiset(r);
  }

  lemma {:induction false} InsertSorts<T>(key: T -> Key, s: seq<T>, x: T)
    requires Sorted(key, s)
    ensures Sorted(key, Insert(key, s, x))
  {
    hide Before;
    if s == [] {
    } else if Before(key(s[|s| - 1]), key(x)) {
      LastBeforeAll(key, s, x);
      SortedAppend(key, s, x);
    } else {
      var n := |s| - 1;
      var r := Insert(key, s[..n], x);
      SortedPrefix(key, s);
      InsertSorts(key, s[..n], x);
      BeforeTotal(key(s[n]), key(x));
      AllBeforeLast(key, s, x);
      SortedAppend(key, r, s[n]);
    }
  }

  lemma LastBeforeAll<T>(key: T -> Key, s: seq<T>, x: T)
    requires Sorted(key, s) && s != [] && Before(key(s[|s| - 1]), key(x))
    ensures forall i | 0 <= i < |s| :: Before(key(s[i]), key(x))
  {
    hide Before;
    forall i | 0 <= i < |s| ensures Before(key(s[i]), key(x)) {
      if i < |s| - 1 {
        BeforeTransitive(key(s[i]), key(s[|s| - 1]), key(x));
      }
    }
  }

  lemma AllBeforeLast<T>(key: T -> Key, s: seq<T>, x: T)
    requires Sorted(key, s) && s != [] && Before(key(x), key(s[|s| - 1]))
    ensures var r := Insert(key, s[..|s| - 1], x); forall i | 0 <= i < |r| :: Before(key(r[i]), key(s[|s| - 1]))
  {
    hide Before, Insert;
    var n := |s| - 1;
    var r := Insert(key, s[..n], x);
    SortedPrefix(key, s);
    forall i | 0 <= i < |r| ensures Before(key(r[i]), key(s[n])) {
      InsertMembers(key, s[..n], x, i);
    }
  }

  lemma {:induction false} SortSorts<T>(key: T -> Key, s: seq<T>)
    ensures Sorted(key, Sort(key, s))
  {
    hide Sorted, Insert;
    if s == [] {
      SortedNothing(key);
    } else {
      SortSorts(key, s[..|s| - 1]);
      InsertSorts(key, Sort(key, s[..|s| - 1]), s[|s| - 1]);
    }
  }

  lemma SortedNothing<T>(key: T -> Key)
    ensures Sorted(key, [])
  {
  }

  /** No two different elements have the same key. */
  ghost predicate KeysDiffer<T>(key: T -> Key, s: multiset<T>) {
    forall x, y | x in s && y in s && key(x) == key(y) :: x == y
  }

  lemma LastIsGreatest<T>(key: T -> Key, s: seq<T>, x: T)
    requires Sorted(key, s) && s != [] && x in s
    ensures x == s[|s| - 1] || Before(key(x), key(s[|s| - 1]))
  {
    hide Before;
    var i :| 0 <= i < |s| && s[i] == x;
  }

  /** There is one sorted order, if the keys tell the elements apart. */
  lemma {:induction false} SortedUnique<T>(key: T -> Key, a: seq<T>, b: seq<T>)
    requires Sorted(key, a) && Sorted(key, b) && multiset(a) == multiset(b) && KeysDiffer(key, multiset(a))
    ensures a == b
  {
    hide Before, Sorted, KeysDiffer;
    if a == [] {
      SameEmpty(a, b);
    } else {
      SameEmpty(b, a);
      var x, y := a[|a| - 1], b[|b| - 1];
      SameLast(key, a, b);
      SplitLast(a);
      SplitLast(b);
      SortedPrefix(key, a);
      SortedPrefix(key, b);
      FewerKeysDiffer(key, multiset(a), multiset(a[..|a| - 1]));
      assert multiset(a[..|a| - 1]) == multiset(a) - multiset{x};
      assert multiset(b[..|b| - 1]) == multiset(b) - multiset{x};
      SortedUnique(key, a[..|a| - 1], b[..|b| - 1]);
    }
  }

  lemma SameEmpty<T>(a: seq<T>, b: seq<T>)
    requires multiset(a) == multiset(b)
    ensures a == [] <==> b == []
  {
    assert |multiset(a)| == |a| && |multiset(b)| == |b|;
  }

  lemma SameLast<T>(key: T -> Key, a: seq<T>, b: seq<T>)
    requires Sorted(key, a) && Sorted(key, b) && multiset(a) == multiset(b) && KeysDiffer(key, multiset(a))
    requires a != [] && b != []
    ensures a[|a| - 1] == b[|b| - 1]
  {
    hide Before, Sorted;
    var x, y := a[|a| - 1], b[|b| - 1];
    assert x in multiset(b) && y in multiset(a);
    LastIsGreatest(key, b, x);
    LastIsGreatest(key, a, y);
    if x != y {
      BeforeAntisymmetric(key(x), key(y));
    }
  }

  lemma FewerKeysDiffer<T>(key: T -> Key, s: multiset<T>, t: multiset<T>)
    requires KeysDiffer(key, s) && t <= s
    ensures KeysDiffer(key, t)
  {
  }

  /** Sorting forgets the order of the input. */
  lemma SortForgetsOrder<T>(key: T -> Key, a: seq<T>, b: seq<T>)
    requires multiset(a) == multiset(b) && KeysDiffer(key, multiset(a))
    ensures Sort(key, a) == Sort(key, b)
  {
    hide Sort, Sorted, KeysDiffer;
    SortKeeps(key, a);
    SortKeeps(key, b);
    SortSorts(key, a);
    SortSorts(key, b);
    SortedUnique(key, Sort(key, a), Sort(key, b));
  }
}
