/** Importance decides: an entry is turned away only because of entries that outrank it. */
module ContextPriority {
  import opened Text
  import opened Tokens
  import opened Ranking
  import opened Context
  import opened ContextProofs

  /** Mandatory entries come first, then higher priorities, then smaller identifiers. */
  predicate Outranks(a: Entry, b: Entry) {
    || (a.mandatory && !b.mandatory)
    || (a.mandatory == b.mandatory && a.priority > b.priority)
    || (a.mandatory == b.mandatory && a.priority == b.priority && TextBefore(a.id, b.id))
  }

  /** The tokens that entries outranking `e` use. */
  function OutrankingTokens(chosen: seq<Chosen>, e: Entry): nat {
    if chosen == [] then 0
    else
      var last := chosen[|chosen| - 1];
      OutrankingTokens(chosen[..|chosen| - 1], e) + if Outranks(last.entry, e) then last.tokens else 0
  }

  /** Beside what outranks it, the entry does not fit. */
  predicate Crowded(allowance: int, chosen: seq<Chosen>, e: Entry) {
    Estimate(e.text) > allowance - OutrankingTokens(chosen, e)
  }

  predicate AllCrowded(allowance: int, chosen: seq<Chosen>, entries: seq<Entry>) {
    forall i | 0 <= i < |entries| :: Crowded(allowance, chosen, entries[i])
  }

  lemma OutrankingMore(chosen: seq<Chosen>, c: Chosen, e: Entry)
    ensures OutrankingTokens(chosen + [c], e) == OutrankingTokens(chosen, e) + if Outranks(c.entry, e) then c.tokens else 0
  {
    assert (chosen + [c])[..|chosen|] == chosen;
  }

  lemma StillCrowded(allowance: int, chosen: seq<Chosen>, c: Chosen, entries: seq<Entry>)
    requires AllCrowded(allowance, chosen, entries)
    ensures AllCrowded(allowance, chosen + [c], entries)
  {
    hide Estimate, Outranks, OutrankingTokens;
    forall i | 0 <= i < |entries| ensures Crowded(allowance, chosen + [c], entries[i]) {
      assert Crowded(allowance, chosen, entries[i]);
      OutrankingMore(chosen, c, entries[i]);
    }
  }

  lemma {:induction false} AllOutrank(chosen: seq<Chosen>, e: Entry)
    requires forall i | 0 <= i < |chosen| :: Outranks(chosen[i].entry, e)
    ensures OutrankingTokens(chosen, e) == TokenSum(chosen)
  {
    hide Outranks;
    if chosen != [] {
      AllOutrank(chosen[..|chosen| - 1], e);
    }
  }

  lemma {:induction false} SourceAt(chosen: seq<Chosen>, i: nat)
    requires i < |chosen|
    ensures chosen[i].entry in multiset(Sources(chosen))
  {
    if i < |chosen| - 1 {
      SourceAt(chosen[..|chosen| - 1], i);
    }
  }

  /** Everything chosen so far outranks the next entry of a sorted queue. */
  lemma ChosenOutrank(queue: seq<Entry>, e: Entry, t: Tier, allowance: int, p: Packed)
    requires Sorted(EntryKey, queue + [e]) && PackOk(t, allowance, queue, p)
    ensures forall i | 0 <= i < |p.chosen| :: Outranks(p.chosen[i].entry, e)
  {
    hide AllChosenOk, AllDemotable, AllTooLarge, AllDroppable, TokenSum, Sources, Outranks, Before;
    forall i | 0 <= i < |p.chosen| ensures Outranks(p.chosen[i].entry, e) {
      SourceAt(p.chosen, i);
      var x := p.chosen[i].entry;
      assert x in multiset(queue);
      var k :| 0 <= k < |queue| && queue[k] == x;
      assert (queue + [e])[k] == x && (queue + [e])[|queue|] == e;
      assert Before(EntryKey(x), EntryKey(e));
      BeforeOutranks(x, e);
    }
  }

  lemma BeforeOutranks(a: Entry, b: Entry)
    requires Before(EntryKey(a), EntryKey(b))
    ensures Outranks(a, b)
  {
    hide TextBefore;
  }

  lemma {:induction false} PriorityRespected(t: Tier, allowance: int, queue: seq<Entry>)
    requires Sorted(EntryKey, queue)
    ensures var p := PackAll(t, allowance, queue);
      AllCrowded(allowance, p.chosen, p.demoted) && AllCrowded(allowance, p.chosen, p.dropped)
  {
    hide Sorted, PackOne, PackOk, Crowded;
    if queue != [] {
      var n := |queue| - 1;
      var front, e := queue[..n], queue[n];
      assert queue == front + [e];
      SortedPrefix(EntryKey, queue);
      PriorityRespected(t, allowance, front);
      PackAllOk(t, allowance, front);
      NextCrowded(t, allowance, front, e, PackAll(t, allowance, front));
    }
  }

  lemma NextCrowded(t: Tier, allowance: int, queue: seq<Entry>, e: Entry, p: Packed)
    requires Sorted(EntryKey, queue + [e]) && PackOk(t, allowance, queue, p)
    requires AllCrowded(allowance, p.chosen, p.demoted) && AllCrowded(allowance, p.chosen, p.dropped)
    ensures var q := PackOne(t, allowance, p, e);
      AllCrowded(allowance, q.chosen, q.demoted) && AllCrowded(allowance, q.chosen, q.dropped)
  {
    var q := PackOne(t, allowance, p, e);
    ChosenOutrank(queue, e, t, allowance, p);
    AllOutrank(p.chosen, e);
    assert p.used == TokenSum(p.chosen);
    hide Sorted, PackOk, Estimate, Truncated, Outranks, OutrankingTokens, TokenSum;
    if q.chosen != p.chosen {
      var c := q.chosen[|p.chosen|];
      assert q.chosen == p.chosen + [c];
      StillCrowded(allowance, p.chosen, c, p.demoted);
      StillCrowded(allowance, p.chosen, c, p.dropped);
    } else {
      assert Crowded(allowance, p.chosen, e);
    }
  }

  /** In every tier, what was turned away did not fit beside the selected entries that outrank it; and the
      selection is listed by tier, then by descending priority. */
  lemma ImportanceDecides(r: Request)
    ensures var (p0, p1, p2) := Compiled(r).tiers; var b := r.budget;
      && AllCrowded(Min(b.t0, b.total), p0.chosen, p0.demoted) && AllCrowded(Min(b.t0, b.total), p0.chosen, p0.dropped)
      && AllCrowded(Min(b.t1, b.total - p0.used), p1.chosen, p1.demoted)
      && AllCrowded(Min(b.t1, b.total - p0.used), p1.chosen, p1.dropped)
      && AllCrowded(Min(b.t2, b.total - p0.used - p1.used), p2.chosen, p2.dropped)
    ensures var chosen := Compiled(r).chosen;
      forall i, j | 0 <= i < j < |chosen| ::
        Index(chosen[i].tier) < Index(chosen[j].tier)
        || (chosen[i].tier == chosen[j].tier && chosen[i].entry.priority >= chosen[j].entry.priority)
  {
    hide PackAll, Sort, OfTier, Competing, AllCrowded, Sorted;
    var p0 := FirstTier(r);
    var p1 := SecondTier(r, p0);
    var q0, q1, q2 := OfTier(Competing(r), T0), OfTier(Competing(r), T1) + p0.demoted, OfTier(Competing(r), T2) + p1.demoted;
    SortSorts(EntryKey, q0);
    SortSorts(EntryKey, q1);
    SortSorts(EntryKey, q2);
    PriorityRespected(T0, Min(r.budget.t0, r.budget.total), Sort(EntryKey, q0));
    PriorityRespected(T1, Min(r.budget.t1, r.budget.total - p0.used), Sort(EntryKey, q1));
    PriorityRespected(T2, Min(r.budget.t2, r.budget.total - p0.used - p1.used), Sort(EntryKey, q2));
    RetainedArePrefixes(r);
    ListedByImportance(Compiled(r).chosen);
  }

  lemma ListedByImportance(chosen: seq<Chosen>)
    requires Sorted(ChosenKey, chosen)
    ensures forall i, j | 0 <= i < j < |chosen| ::
      Index(chosen[i].tier) < Index(chosen[j].tier)
      || (chosen[i].tier == chosen[j].tier && chosen[i].entry.priority >= chosen[j].entry.priority)
  {
    hide TextBefore;
    forall i, j | 0 <= i < j < |chosen|
      ensures Index(chosen[i].tier) < Index(chosen[j].tier)
        || (chosen[i].tier == chosen[j].tier && chosen[i].entry.priority >= chosen[j].entry.priority) {
      assert Before(ChosenKey(chosen[i]), ChosenKey(chosen[j]));
    }
  }

  /** The minimal canon competes exactly when no mandatory canon was given, and then as a mandatory entry that
      nothing else in its tier precedes by priority. */
  lemma FallbackExactly(r: Request)
    ensures (exists i | 0 <= i < |r.entries| :: r.entries[i].tier == T0 && r.entries[i].mandatory) ==> Competing(r) == r.entries
    ensures !(exists i | 0 <= i < |r.entries| :: r.entries[i].tier == T0 && r.entries[i].mandatory) ==>
      && |Competing(r)| == |r.entries| + 1 && Competing(r)[..|r.entries|] == r.entries
      && var f := Competing(r)[|r.entries|];
         f.tier == T0 && f.mandatory && !f.demotable && f.text == r.minimalCanon
         && forall i | 0 <= i < |r.entries| && r.entries[i].tier == T0 :: Outranks(f, r.entries[i])
    ensures Compiled(r).usedFallback <==> Competing(r) != r.entries
  {
    hide PackAll, Sort, OfTier;
    if HasAnchor(r.entries) {
      var i :| 0 <= i < |r.entries| && IsAnchor(r.entries[i]);
    } else {
      assert forall i | 0 <= i < |r.entries| :: !IsAnchor(r.entries[i]);
    }
  }

  // ---- Reported cuts ----

  /** The cuts among what was chosen, as they are reported. */
  function CutsOf(chosen: seq<Chosen>): seq<Trim> {
    if chosen == [] then []
    else
      var last := chosen[|chosen| - 1];
      CutsOf(chosen[..|chosen| - 1])
      + if last.text == last.entry.text then [] else [Trim(last.entry, last.tier, Estimate(last.entry.text), Estimate(last.text))]
  }

  lemma CutsMore(chosen: seq<Chosen>, c: Chosen)
    ensures CutsOf(chosen + [c]) == CutsOf(chosen)
      + if c.text == c.entry.text then [] else [Trim(c.entry, c.tier, Estimate(c.entry.text), Estimate(c.text))]
  {
    assert (chosen + [c])[..|chosen|] == chosen;
  }

  /** Every cut is reported, with the tokens before and after, and nothing else is. */
  lemma {:induction false} CutsAreReported(t: Tier, allowance: int, queue: seq<Entry>)
    ensures PackAll(t, allowance, queue).trims == CutsOf(PackAll(t, allowance, queue).chosen)
  {
    hide PackOne, CutsOf;
    if queue == [] {
      assert CutsOf([]) == [] by { NoCuts(); }
    } else {
      var n := |queue| - 1;
      CutsAreReported(t, allowance, queue[..n]);
      OneCutReported(t, allowance, PackAll(t, allowance, queue[..n]), queue[n]);
    }
  }

  lemma NoCuts()
    ensures CutsOf([]) == []
  {
  }

  lemma OneCutReported(t: Tier, allowance: int, p: Packed, e: Entry)
    requires p.trims == CutsOf(p.chosen)
    ensures PackOne(t, allowance, p, e).trims == CutsOf(PackOne(t, allowance, p, e).chosen)
  {
    hide CutsOf, Estimate, Truncated;
    var q := PackOne(t, allowance, p, e);
    TruncatedFits(e.text, Remaining(allowance, p.used));
    if q.chosen != p.chosen {
      var c := q.chosen[|p.chosen|];
      assert q.chosen == p.chosen + [c];
      CutsMore(p.chosen, c);
      assert p.trims + [] == p.trims;
    }
  }
}
