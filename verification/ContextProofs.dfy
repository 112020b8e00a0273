/** Budgets, conservation, greed and order-independence of context compilation. */
module ContextProofs {
  import opened Text
  import opened Tokens
  import opened Ranking
  import opened Context

  // ---- One tier ----

  function TokenSum(chosen: seq<Chosen>): nat {
    if chosen == [] then 0 else TokenSum(chosen[..|chosen| - 1]) + chosen[|chosen| - 1].tokens
  }

  function Sources(chosen: seq<Chosen>): seq<Entry> {
    if chosen == [] then [] else Sources(chosen[..|chosen| - 1]) + [chosen[|chosen| - 1].entry]
  }

  lemma ChosenAppend(chosen: seq<Chosen>, c: Chosen)
    ensures TokenSum(chosen + [c]) == TokenSum(chosen) + c.tokens
    ensures Sources(chosen + [c]) == Sources(chosen) + [c.entry]
  {
    assert (chosen + [c])[..|chosen|] == chosen;
  }

  /** A retained text is a prefix of the entry's text, counted exactly; only mandatory entries are cut. */
  predicate ChosenOk(t: Tier, c: Chosen) {
    && c.tier == t && c.tokens == Estimate(c.text) && c.text <= c.entry.text
    && (c.text == c.entry.text || c.entry.mandatory)
  }

  predicate AllChosenOk(t: Tier, chosen: seq<Chosen>) {
    forall i | 0 <= i < |chosen| :: ChosenOk(t, chosen[i])
  }

  predicate Demotable(e: Entry) {
    e.demotable && !e.mandatory
  }

  predicate AllDemotable(entries: seq<Entry>) {
    forall i | 0 <= i < |entries| :: Demotable(entries[i])
  }

  /** The entry would not fit into what is left. */
  predicate TooLarge(allowance: int, used: nat, e: Entry) {
    Estimate(e.text) > allowance - used
  }

  predicate AllTooLarge(allowance: int, used: nat, entries: seq<Entry>) {
    forall i | 0 <= i < |entries| :: TooLarge(allowance, used, entries[i])
  }

  /** An entry may be dropped only where it cannot be demoted and, if mandatory, not even cut. */
  predicate Droppable(t: Tier, allowance: int, used: nat, e: Entry) {
    && (t == T2 || !Demotable(e))
    && (e.mandatory ==> Truncated(e.text, Remaining(allowance, used)) == "")
  }

  predicate AllDroppable(t: Tier, allowance: int, used: nat, entries: seq<Entry>) {
    forall i | 0 <= i < |entries| :: Droppable(t, allowance, used, entries[i])
  }

  predicate Conserved(queue: seq<Entry>, p: Packed) {
    multiset(Sources(p.chosen)) + multiset(p.demoted) + multiset(p.dropped) == multiset(queue)
  }

  predicate PackOk(t: Tier, allowance: int, queue: seq<Entry>, p: Packed) {
    && p.used == TokenSum(p.chosen) && (p.used <= allowance || p.used == 0)
    && AllChosenOk(t, p.chosen) && AllDemotable(p.demoted) && (t == T2 ==> p.demoted == [])
    && AllTooLarge(allowance, p.used, p.demoted) && AllTooLarge(allowance, p.used, p.dropped)
    && AllDroppable(t, allowance, p.used, p.dropped)
    && Conserved(queue, p)
  }

  lemma ConservedStep(queue: seq<Entry>, e: Entry, p: Packed, q: Packed)
    requires Conserved(queue, p)
    requires || (q.chosen != [] && q.chosen[..|q.chosen| - 1] == p.chosen && q.chosen[|q.chosen| - 1].entry == e && q.demoted == p.demoted && q.dropped == p.dropped)
             || (q.chosen == p.chosen && q.demoted == p.demoted + [e] && q.dropped == p.dropped)
             || (q.chosen == p.chosen && q.demoted == p.demoted && q.dropped == p.dropped + [e])
    ensures Conserved(queue + [e], q)
  {
  }

  lemma StillTooLarge(allowance: int, used: nat, more: nat, entries: seq<Entry>)
    requires AllTooLarge(allowance, used, entries) && used <= more
    ensures AllTooLarge(allowance, more, entries)
  {
    hide Estimate;
    forall i | 0 <= i < |entries| ensures TooLarge(allowance, more, entries[i]) {
      assert TooLarge(allowance, used, entries[i]);
    }
  }

  lemma StillDroppable(t: Tier, allowance: int, used: nat, more: nat, entries: seq<Entry>)
    requires AllDroppable(t, allowance, used, entries) && AllTooLarge(allowance, used, entries) && used <= more
    ensures AllDroppable(t, allowance, more, entries)
  {
    hide Estimate, Truncated;
    forall i | 0 <= i < |entries| ensures Droppable(t, allowance, more, entries[i]) {
      var e := entries[i];
      assert Droppable(t, allowance, used, e) && TooLarge(allowance, used, e);
      if e.mandatory && Remaining(allowance, used) > 0 {
        TruncatedShrinks(e.text, Remaining(allowance, more), Remaining(allowance, used));
      }
    }
  }

  lemma DroppedGrow(t: Tier, allowance: int, used: nat, entries: seq<Entry>, e: Entry)
    requires AllDroppable(t, allowance, used, entries) && Droppable(t, allowance, used, e)
    ensures AllDroppable(t, allowance, used, entries + [e])
  {
    hide Droppable;
  }

  lemma PackOneOk(t: Tier, allowance: int, queue: seq<Entry>, p: Packed, e: Entry)
    requires PackOk(t, allowance, queue, p)
    ensures PackOk(t, allowance, queue + [e], PackOne(t, allowance, p, e))
  {
    hide Estimate, Truncated, TokenSum, Conserved, AllTooLarge, AllChosenOk, AllDemotable, AllDroppable;
    var q := PackOne(t, allowance, p, e);
    var remaining := Remaining(allowance, p.used);
    TruncatedFits(e.text, remaining);
    StillTooLarge(allowance, p.used, q.used, p.demoted);
    StillTooLarge(allowance, p.used, q.used, p.dropped);
    StillDroppable(t, allowance, p.used, q.used, p.dropped);
    if q.chosen != p.chosen {
      var c := q.chosen[|p.chosen|];
      ChosenAppend(p.chosen, c);
      assert q.chosen == p.chosen + [c];
      ChosenGrows(t, p.chosen, c);
      assert q.chosen[..|p.chosen|] == p.chosen;
    } else {
      RejectedGrow(allowance, p.used, p.demoted, e);
      RejectedGrow(allowance, p.used, p.dropped, e);
      if q.dropped != p.dropped {
        NothingTruncated(e.text);
        DroppedGrow(t, allowance, p.used, p.dropped, e);
      }
    }
    ConservedStep(queue, e, p, q);
  }

  lemma NothingTruncated(text: string)
    ensures Truncated(text, 0) == ""
  {
  }

  lemma ChosenGrows(t: Tier, chosen: seq<Chosen>, c: Chosen)
    requires AllChosenOk(t, chosen) && ChosenOk(t, c)
    ensures AllChosenOk(t, chosen + [c])
  {
    hide ChosenOk;
  }

  lemma RejectedGrow(allowance: int, used: nat, entries: seq<Entry>, e: Entry)
    ensures AllTooLarge(allowance, used, entries) && TooLarge(allowance, used, e) ==> AllTooLarge(allowance, used, entries + [e])
    ensures AllDemotable(entries) && Demotable(e) ==> AllDemotable(entries + [e])
  {
    hide TooLarge, Demotable;
  }

  lemma {:induction false} PackAllOk(t: Tier, allowance: int, queue: seq<Entry>)
    ensures PackOk(t, allowance, queue, PackAll(t, allowance, queue))
  {
    hide PackOne, PackOk;
    if queue == [] {
      PackNothing(t, allowance);
    } else {
      var n := |queue| - 1;
      PackAllOk(t, allowance, queue[..n]);
      PackOneOk(t, allowance, queue[..n], PackAll(t, allowance, queue[..n]), queue[n]);
      assert queue == queue[..n] + [queue[n]];
    }
  }

  lemma PackNothing(t: Tier, allowance: int)
    ensures PackOk(t, allowance, [], NOTHING)
  {
  }

  // ---- All three ----

  /** What `Compiled` makes of each tier. */
  lemma TiersOk(r: Request)
    ensures var (p0, p1, p2) := Compiled(r).tiers;
      && PackOk(T0, Min(r.budget.t0, r.budget.total), Sort(EntryKey, OfTier(Competing(r), T0)), p0)
      && PackOk(T1, Min(r.budget.t1, r.budget.total - p0.used), Sort(EntryKey, OfTier(Competing(r), T1) + p0.demoted), p1)
      && PackOk(T2, Min(r.budget.t2, r.budget.total - p0.used - p1.used), Sort(EntryKey, OfTier(Competing(r), T2) + p1.demoted), p2)
  {
    hide PackAll, PackOk, Sort, OfTier, Competing;
    var p0 := FirstTier(r);
    var p1 := SecondTier(r, p0);
    PackAllOk(T0, Min(r.budget.t0, r.budget.total), Sort(EntryKey, OfTier(Competing(r), T0)));
    PackAllOk(T1, Min(r.budget.t1, r.budget.total - p0.used), Sort(EntryKey, OfTier(Competing(r), T1) + p0.demoted));
    PackAllOk(T2, Min(r.budget.t2, r.budget.total - p0.used - p1.used), Sort(EntryKey, OfTier(Competing(r), T2) + p1.demoted));
  }

  /** Every tier stays within its budget and all of them within the total, counted over the retained texts. */
  lemma WithinBudgets(r: Request)
    ensures var (p0, p1, p2) := Compiled(r).tiers; var b := r.budget;
      && p0.used <= b.t0 && p1.used <= b.t1 && p2.used <= b.t2 && p0.used + p1.used + p2.used <= b.total
      && p0.used == TokenSum(p0.chosen) && p1.used == TokenSum(p1.chosen) && p2.used == TokenSum(p2.chosen)
  {
    TiersOk(r);
    hide Compiled, Sort, OfTier, Competing, TokenSum, AllChosenOk, AllDemotable, AllTooLarge, AllDroppable, Conserved;
  }

  lemma {:induction false} OfTierSplits(entries: seq<Entry>)
    ensures multiset(OfTier(entries, T0)) + multiset(OfTier(entries, T1)) + multiset(OfTier(entries, T2)) == multiset(entries)
  {
    if entries != [] {
      var n := |entries| - 1;
      OfTierSplits(entries[..n]);
      SplitLast(entries);
    }
  }

  lemma SourcesInsert(s: seq<Chosen>, x: Chosen)
    ensures multiset(Sources(Insert(ChosenKey, s, x))) == multiset(Sources(s)) + multiset{x.entry}
    decreases |s|
  {
    hide Before;
    if s == [] || Before(ChosenKey(s[|s| - 1]), ChosenKey(x)) {
      ChosenAppend(s, x);
    } else {
      var n := |s| - 1;
      SourcesInsert(s[..n], x);
      ChosenAppend(Insert(ChosenKey, s[..n], x), s[n]);
    }
  }

  lemma {:induction false} SourcesSort(s: seq<Chosen>)
    ensures multiset(Sources(Sort(ChosenKey, s))) == multiset(Sources(s))
  {
    hide Insert;
    if s != [] {
      var n := |s| - 1;
      SourcesSort(s[..n]);
      SourcesInsert(Sort(ChosenKey, s[..n]), s[n]);
    }
  }

  lemma {:induction false} SourcesConcat(a: seq<Chosen>, b: seq<Chosen>)
    ensures Sources(a + b) == Sources(a) + Sources(b)
    decreases |b|
  {
    if b == [] {
      assert a + b == a;
    } else {
      var n := |b| - 1;
      assert (a + b)[..|a| + n] == a + b[..n];
      SourcesConcat(a, b[..n]);
    }
  }

  function Dropped(s: Snapshot): seq<Entry> {
    s.tiers.0.dropped + s.tiers.1.dropped + s.tiers.2.dropped
  }

  ghost predicate TierConserves(p: Packed, queue: multiset<Entry>) {
    multiset(Sources(p.chosen)) + multiset(p.demoted) + multiset(p.dropped) == queue
  }

  lemma TiersConserve(r: Request)
    ensures var (p0, p1, p2) := Compiled(r).tiers; var all := Competing(r);
      && TierConserves(p0, multiset(OfTier(all, T0)))
      && TierConserves(p1, multiset(OfTier(all, T1) + p0.demoted))
      && TierConserves(p2, multiset(OfTier(all, T2) + p1.demoted)) && p2.demoted == []
  {
    TiersOk(r);
    var (p0, p1, p2) := Compiled(r).tiers;
    var all := Competing(r);
    hide Compiled, Sort, OfTier, Competing, Sources, PackOk, TierConserves;
    PackConserves(T0, Min(r.budget.t0, r.budget.total), Sort(EntryKey, OfTier(all, T0)), p0);
    PackConserves(T1, Min(r.budget.t1, r.budget.total - p0.used), Sort(EntryKey, OfTier(all, T1) + p0.demoted), p1);
    PackConserves(T2, Min(r.budget.t2, r.budget.total - p0.used - p1.used), Sort(EntryKey, OfTier(all, T2) + p1.demoted), p2);
    SortKeeps(EntryKey, OfTier(all, T0));
    SortKeeps(EntryKey, OfTier(all, T1) + p0.demoted);
    SortKeeps(EntryKey, OfTier(all, T2) + p1.demoted);
  }

  lemma Joined(p0: Packed, p1: Packed, p2: Packed, q0: seq<Entry>, q1: seq<Entry>, q2: seq<Entry>)
    requires TierConserves(p0, multiset(q0)) && TierConserves(p1, multiset(q1 + p0.demoted))
    requires TierConserves(p2, multiset(q2 + p1.demoted)) && p2.demoted == []
    ensures (multiset(Sources(p0.chosen)) + multiset(Sources(p1.chosen)) + multiset(Sources(p2.chosen)))
         + (multiset(p0.dropped) + multiset(p1.dropped) + multiset(p2.dropped)) == multiset(q0) + multiset(q1) + multiset(q2)
  {
    hide Sources;
    Telescopes(
      multiset(Sources(p0.chosen)), multiset(p0.demoted), multiset(p0.dropped), multiset(q0),
      multiset(Sources(p1.chosen)), multiset(p1.demoted), multiset(p1.dropped), multiset(q1),
      multiset(Sources(p2.chosen)), multiset(p2.dropped), multiset(q2));
  }

  /** Every competing entry, the fallback included, is chosen once or dropped once. */
  lemma NothingLost(r: Request)
    ensures multiset(Sources(Compiled(r).chosen)) + multiset(Dropped(Compiled(r))) == multiset(Competing(r))
  {
    TiersConserve(r);
    var s := Compiled(r);
    var (p0, p1, p2) := s.tiers;
    var all := Competing(r);
    assert s.chosen == Sort(ChosenKey, p0.chosen + p1.chosen + p2.chosen);
    hide Compiled, Sort, OfTier, Competing, Sources, TierConserves;
    AllSources(p0.chosen, p1.chosen, p2.chosen);
    OfTierSplits(all);
    Joined(p0, p1, p2, OfTier(all, T0), OfTier(all, T1), OfTier(all, T2));
  }

  lemma PackConserves(t: Tier, allowance: int, queue: seq<Entry>, p: Packed)
    requires PackOk(t, allowance, queue, p)
    ensures TierConserves(p, multiset(queue))
    ensures t == T2 ==> p.demoted == []
  {
    hide TokenSum, AllChosenOk, AllDemotable, AllTooLarge, AllDroppable, Sources;
  }

  lemma AllSources(a: seq<Chosen>, b: seq<Chosen>, c: seq<Chosen>)
    ensures multiset(Sources(Sort(ChosenKey, a + b + c))) == multiset(Sources(a)) + multiset(Sources(b)) + multiset(Sources(c))
  {
    hide Sources, Sort;
    SourcesSort(a + b + c);
    SourcesConcat(a + b, c);
    SourcesConcat(a, b);
  }

  /** What one tier demotes is what the next one receives. */
  lemma Telescopes(
      s0: multiset<Entry>, d0: multiset<Entry>, x0: multiset<Entry>, q0: multiset<Entry>,
      s1: multiset<Entry>, d1: multiset<Entry>, x1: multiset<Entry>, q1: multiset<Entry>,
      s2: multiset<Entry>, x2: multiset<Entry>, q2: multiset<Entry>)
    requires s0 + d0 + x0 == q0 && s1 + d1 + x1 == q1 + d0 && s2 + x2 == q2 + d1
    ensures (s0 + s1 + s2) + (x0 + x1 + x2) == q0 + q1 + q2
  {
    forall e: Entry ensures ((s0 + s1 + s2) + (x0 + x1 + x2))[e] == (q0 + q1 + q2)[e] {
      assert (s0 + d0 + x0)[e] == q0[e];
      assert (s1 + d1 + x1)[e] == (q1 + d0)[e];
      assert (s2 + x2)[e] == (q2 + d1)[e];
    }
  }

  /** Mandatory entries are never demoted, and nothing is demoted below the last tier. */
  lemma OnlyDemotableMoves(r: Request)
    ensures var (p0, p1, p2) := Compiled(r).tiers;
      AllDemotable(p0.demoted) && AllDemotable(p1.demoted) && p2.demoted == []
  {
    TiersOk(r);
    hide Compiled, Sort, OfTier, Competing, TokenSum, AllChosenOk, AllDemotable, AllTooLarge, AllDroppable, Conserved;
  }

  /** Retained texts are prefixes, and only mandatory entries are shortened. */
  lemma RetainedArePrefixes(r: Request)
    ensures var (p0, p1, p2) := Compiled(r).tiers;
      AllChosenOk(T0, p0.chosen) && AllChosenOk(T1, p1.chosen) && AllChosenOk(T2, p2.chosen)
    ensures var s := Compiled(r);
      multiset(s.chosen) == multiset(s.tiers.0.chosen) + multiset(s.tiers.1.chosen) + multiset(s.tiers.2.chosen)
    ensures Sorted(ChosenKey, Compiled(r).chosen)
  {
    TiersOk(r);
    var s := Compiled(r);
    var all := s.tiers.0.chosen + s.tiers.1.chosen + s.tiers.2.chosen;
    assert s.chosen == Sort(ChosenKey, all);
    hide Compiled, Sort, OfTier, Competing, TokenSum, AllChosenOk, AllDemotable, AllTooLarge, AllDroppable, Conserved;
    SortKeeps(ChosenKey, all);
    SortSorts(ChosenKey, all);
  }

  /** Greed: nothing a tier turned away would still fit into what that tier left unused. */
  lemma NothingRejectedStillFits(r: Request)
    ensures var (p0, p1, p2) := Compiled(r).tiers; var b := r.budget;
      && AllTooLarge(Min(b.t0, b.total), p0.used, p0.demoted + p0.dropped)
      && AllTooLarge(Min(b.t1, b.total - p0.used), p1.used, p1.demoted + p1.dropped)
      && AllTooLarge(Min(b.t2, b.total - p0.used - p1.used), p2.used, p2.demoted + p2.dropped)
  {
    TiersOk(r);
    hide Compiled, Sort, OfTier, Competing, TokenSum, AllChosenOk, AllDemotable, AllDroppable, Conserved, TooLarge;
  }

  /** Nothing is dropped without need: only what cannot be demoted is, and a mandatory entry only if not even
      a cut of it would fit into what its tier left unused. */
  lemma DroppedForCause(r: Request)
    ensures var (p0, p1, p2) := Compiled(r).tiers; var b := r.budget;
      && AllDroppable(T0, Min(b.t0, b.total), p0.used, p0.dropped)
      && AllDroppable(T1, Min(b.t1, b.total - p0.used), p1.used, p1.dropped)
      && AllDroppable(T2, Min(b.t2, b.total - p0.used - p1.used), p2.used, p2.dropped)
  {
    TiersOk(r);
    hide Compiled, Sort, OfTier, Competing, TokenSum, AllChosenOk, AllDemotable, AllTooLarge, AllDroppable, Conserved;
  }

  // ---- Order of the input ----

  ghost predicate IdsUnique(entries: multiset<Entry>) {
    forall x, y | x in entries && y in entries && x.id == y.id :: x == y
  }

  lemma AnchorMember(entries: seq<Entry>)
    ensures HasAnchor(entries) <==> exists e | e in multiset(entries) :: IsAnchor(e)
  {
    if HasAnchor(entries) {
      var i :| 0 <= i < |entries| && IsAnchor(entries[i]);
      assert entries[i] in multiset(entries);
    }
    if e :| e in multiset(entries) && IsAnchor(e) {
      var i :| 0 <= i < |entries| && entries[i] == e;
    }
  }

  lemma {:induction false} OfTierMembers(entries: seq<Entry>, t: Tier, e: Entry)
    ensures multiset(OfTier(entries, t))[e] == if e.tier == t then multiset(entries)[e] else 0
  {
    if entries != [] {
      var n := |entries| - 1;
      OfTierMembers(entries[..n], t, e);
      SplitLast(entries);
    }
  }

  lemma OfTierForgetsOrder(a: seq<Entry>, b: seq<Entry>, t: Tier)
    requires multiset(a) == multiset(b)
    ensures multiset(OfTier(a, t)) == multiset(OfTier(b, t))
  {
    hide OfTier;
    forall e ensures multiset(OfTier(a, t))[e] == multiset(OfTier(b, t))[e] {
      OfTierMembers(a, t, e);
      OfTierMembers(b, t, e);
    }
  }

  /** Entries in a queue: from the request, or the fallback where no other entry is mandatory. */
  ghost predicate FromRequest(r: Request, t: Tier, queue: multiset<Entry>) {
    forall e | e in queue ::
      e in multiset(r.entries) || (t == T0 && e == Fallback(r) && !HasAnchor(r.entries))
  }

  lemma QueueKeysDiffer(r: Request, t: Tier, queue: multiset<Entry>)
    requires IdsUnique(multiset(r.entries)) && FromRequest(r, t, queue) && (t == T0 ==> forall e | e in queue :: e.tier == T0)
    ensures KeysDiffer(EntryKey, queue)
  {
    AnchorMember(r.entries);
    hide HasAnchor;
    forall x, y | x in queue && y in queue && EntryKey(x) == EntryKey(y) ensures x == y {
      assert x.id == y.id && x.mandatory == y.mandatory;
      if x !in multiset(r.entries) || y !in multiset(r.entries) {
        assert IsAnchor(x) && IsAnchor(y);
      }
    }
  }

  lemma CompetingForgetsOrder(a: Request, b: Request)
    requires multiset(a.entries) == multiset(b.entries) && a == b.(entries := a.entries)
    ensures multiset(Competing(a)) == multiset(Competing(b)) && HasAnchor(a.entries) == HasAnchor(b.entries)
  {
    AnchorMember(a.entries);
    AnchorMember(b.entries);
    hide HasAnchor;
  }

  lemma TierMember(r: Request, t: Tier, e: Entry)
    requires e in multiset(OfTier(Competing(r), t))
    ensures e.tier == t
    ensures e in multiset(r.entries) || (t == T0 && e == Fallback(r) && !HasAnchor(r.entries))
  {
    hide HasAnchor, OfTier;
    OfTierMembers(Competing(r), t, e);
    assert e in multiset(Competing(r));
  }

  lemma FirstQueue(r: Request)
    ensures FromRequest(r, T0, multiset(OfTier(Competing(r), T0)))
    ensures forall e | e in multiset(OfTier(Competing(r), T0)) :: e.tier == T0
  {
    hide OfTier, Competing, HasAnchor;
    forall e | e in multiset(OfTier(Competing(r), T0))
      ensures e.tier == T0 && (e in multiset(r.entries) || (e == Fallback(r) && !HasAnchor(r.entries))) {
      TierMember(r, T0, e);
    }
  }

  /** What is demoted came from the queue, and the fallback never is. */
  lemma LaterQueue(r: Request, t: Tier, allowance: int, queue: seq<Entry>, p: Packed, next: Tier)
    requires t != next && next != T0 && FromRequest(r, t, multiset(queue)) && PackOk(t, allowance, queue, p)
    ensures FromRequest(r, next, multiset(OfTier(Competing(r), next) + p.demoted))
  {
    hide OfTier, Competing, HasAnchor, TokenSum, AllChosenOk, AllTooLarge, AllDroppable, Sources;
    forall e | e in multiset(OfTier(Competing(r), next) + p.demoted) ensures e in multiset(r.entries) {
      if e in multiset(OfTier(Competing(r), next)) {
        TierMember(r, next, e);
      } else {
        assert e in p.demoted;
        assert e in multiset(queue);
      }
    }
  }

  lemma SameTier(a: Request, b: Request, t: Tier, demoted: seq<Entry>)
    requires multiset(a.entries) == multiset(b.entries) && a == b.(entries := a.entries)
    requires KeysDiffer(EntryKey, multiset(OfTier(Competing(a), t) + demoted))
    ensures Sort(EntryKey, OfTier(Competing(a), t) + demoted) == Sort(EntryKey, OfTier(Competing(b), t) + demoted)
  {
    hide OfTier, Competing, KeysDiffer, Sort;
    CompetingForgetsOrder(a, b);
    OfTierForgetsOrder(Competing(a), Competing(b), t);
    SortForgetsOrder(EntryKey, OfTier(Competing(a), t) + demoted, OfTier(Competing(b), t) + demoted);
  }

  lemma SortedFromRequest(r: Request, t: Tier, queue: seq<Entry>)
    requires FromRequest(r, t, multiset(queue))
    ensures FromRequest(r, t, multiset(Sort(EntryKey, queue)))
  {
    hide Sort, HasAnchor;
    SortKeeps(EntryKey, queue);
  }

  /** The snapshot does not depend on the order in which entries with distinct identifiers are given. */
  lemma OrderDoesNotMatter(a: Request, b: Request)
    requires multiset(a.entries) == multiset(b.entries) && a == b.(entries := a.entries)
    requires IdsUnique(multiset(a.entries))
    ensures Compiled(a) == Compiled(b)
  {
    hide OfTier, Competing, KeysDiffer, Sort, PackAll, HasAnchor, FromRequest, IdsUnique, PackOk;
    var all := Competing(a);
    var b0, b1 := Min(a.budget.t0, a.budget.total), a.budget;
    var q0 := OfTier(all, T0);
    assert q0 + [] == q0 && OfTier(Competing(b), T0) + [] == OfTier(Competing(b), T0);
    FirstQueue(a);
    QueueKeysDiffer(a, T0, multiset(q0));
    SameTier(a, b, T0, []);
    var p0 := FirstTier(a);
    SortedFromRequest(a, T0, q0);
    PackAllOk(T0, b0, Sort(EntryKey, q0));
    LaterQueue(a, T0, b0, Sort(EntryKey, q0), p0, T1);
    var q1 := OfTier(all, T1) + p0.demoted;
    QueueKeysDiffer(a, T1, multiset(q1));
    SameTier(a, b, T1, p0.demoted);
    var p1 := SecondTier(a, p0);
    SortedFromRequest(a, T1, q1);
    PackAllOk(T1, Min(b1.t1, b1.total - p0.used), Sort(EntryKey, q1));
    LaterQueue(a, T1, Min(b1.t1, b1.total - p0.used), Sort(EntryKey, q1), p1, T2);
    var q2 := OfTier(all, T2) + p1.demoted;
    QueueKeysDiffer(a, T2, multiset(q2));
    SameTier(a, b, T2, p1.demoted);
    CompetingForgetsOrder(a, b);
  }
}
