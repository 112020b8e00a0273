/** Context compilation: entries compete for three token budgets, tier by tier. What does not fit is cut
    (if mandatory), demoted to the next tier, or dropped. */
module Context {
  import opened Text
  import opened Tokens
  import opened Ranking

  datatype Tier = T0 | T1 | T2

  datatype Category = Canon | Persona | OwnerProfile | Relationship | SessionState | MemoryDirectory

  datatype Entry = Entry(id: string, tier: Tier, category: Category, text: string, priority: int, mandatory: bool,
                         demotable: bool, revisionId: Option<string>, memoryId: Option<string>)

  datatype Budget = Budget(t0: nat, t1: nat, t2: nat, total: nat)

  datatype Request = Request(budget: Budget, entries: seq<Entry>, minimalCanon: string, canonRevision: string)

  datatype Chosen = Chosen(entry: Entry, tier: Tier, text: string, tokens: nat)

  datatype Trim = Trim(entry: Entry, tier: Tier, original: nat, retained: nat)

  /** One tier while it is filled. */
  datatype Packed = Packed(used: nat, chosen: seq<Chosen>, demoted: seq<Entry>, dropped: seq<Entry>, trims: seq<Trim>)

  datatype Snapshot = Snapshot(chosen: seq<Chosen>, tiers: (Packed, Packed, Packed), usedFallback: bool)

  function Index(t: Tier): nat {
    match t
    case T0 => 0
    case T1 => 1
    case T2 => 2
  }

  function EntryKey(e: Entry): Key {
    Key(if e.mandatory then 0 else 1, e.priority, e.id)
  }

  function ChosenKey(c: Chosen): Key {
    Key(Index(c.tier), c.entry.priority, c.entry.id)
  }

  predicate IsAnchor(e: Entry) {
    e.tier == T0 && e.mandatory
  }

  predicate HasAnchor(entries: seq<Entry>) {
    exists i | 0 <= i < |entries| :: IsAnchor(entries[i])
  }

  function Fallback(r: Request): Entry {
    Entry("__minimal_canon__", T0, Canon, r.minimalCanon, 10_000, true, false, Some(r.canonRevision), None)
  }

  /** Everything that competes: the entries, and the minimal canon if no mandatory canon was given. */
  function Competing(r: Request): seq<Entry> {
    if HasAnchor(r.entries) then r.entries else r.entries + [Fallback(r)]
  }

  function OfTier(entries: seq<Entry>, t: Tier): seq<Entry> {
    if entries == [] then []
    else
      var n := |entries| - 1;
      OfTier(entries[..n], t) + if entries[n].tier == t then [entries[n]] else []
  }

  function Remaining(allowance: int, used: nat): nat {
    if allowance > used then allowance - used else 0
  }

  function PackOne(t: Tier, allowance: int, p: Packed, e: Entry): Packed {
    var tokens := Estimate(e.text);
    var remaining := Remaining(allowance, p.used);
    if tokens <= remaining then
      p.(used := p.used + tokens, chosen := p.chosen + [Chosen(e, t, e.text, tokens)])
    else
      var retained := Truncated(e.text, remaining);
      if e.mandatory && remaining > 0 && retained != "" then
        p.(used := p.used + Estimate(retained), chosen := p.chosen + [Chosen(e, t, retained, Estimate(retained))],
           trims := p.trims + [Trim(e, t, tokens, Estimate(retained))])
      else if e.demotable && !e.mandatory && t != T2 then p.(demoted := p.demoted + [e])
      else p.(dropped := p.dropped + [e])
  }

  const NOTHING := Packed(0, [], [], [], [])

  function PackAll(t: Tier, allowance: int, queue: seq<Entry>): Packed {
    if queue == [] then NOTHING
    else PackOne(t, allowance, PackAll(t, allowance, queue[..|queue| - 1]), queue[|queue| - 1])
  }

  function Min(a: int, b: int): int {
    if a < b then a else b
  }

  function FirstTier(r: Request): Packed {
    PackAll(T0, Min(r.budget.t0, r.budget.total), Sort(EntryKey, OfTier(Competing(r), T0)))
  }

  function SecondTier(r: Request, p0: Packed): Packed {
    PackAll(T1, Min(r.budget.t1, r.budget.total - p0.used), Sort(EntryKey, OfTier(Competing(r), T1) + p0.demoted))
  }

  function ThirdTier(r: Request, p0: Packed, p1: Packed): Packed {
    PackAll(T2, Min(r.budget.t2, r.budget.total - p0.used - p1.used), Sort(EntryKey, OfTier(Competing(r), T2) + p1.demoted))
  }

  function Compiled(r: Request): Snapshot {
    var p0 := FirstTier(r);
    var p1 := SecondTier(r, p0);
    var p2 := ThirdTier(r, p0, p1);
    Snapshot(Sort(ChosenKey, p0.chosen + p1.chosen + p2.chosen), (p0, p1, p2), !HasAnchor(r.entries))
  }

  // ---- The loops ----

  method PackTier(t: Tier, allowance: int, queue: seq<Entry>) returns (p: Packed)
    ensures p == PackAll(t, allowance, queue)
  {
    hide Estimate, Truncated;
    p := NOTHING;
    var i := 0;
    while i < |queue|
      invariant i <= |queue| && p == PackAll(t, allowance, queue[..i])
    {
      assert queue[..i + 1][..i] == queue[..i];
      var e := queue[i];
      var tokens := Estimate(e.text);
      var remaining := Remaining(allowance, p.used);
      i := i + 1;
      if tokens <= remaining {
        p := p.(used := p.used + tokens, chosen := p.chosen + [Chosen(e, t, e.text, tokens)]);
        continue;
      }
      if e.mandatory && remaining > 0 {
        var retained := Truncate(e.text, remaining);
        if retained != "" {
          var n := Estimate(retained);
          p := p.(used := p.used + n, chosen := p.chosen + [Chosen(e, t, retained, n)], trims := p.trims + [Trim(e, t, tokens, n)]);
          continue;
        }
      }
      if e.demotable && !e.mandatory && t != T2 {
        p := p.(demoted := p.demoted + [e]);
      } else {
        p := p.(dropped := p.dropped + [e]);
      }
    }
    assert queue[..i] == queue;
  }

  method Compile(r: Request) returns (s: Snapshot)
    ensures s == Compiled(r)
  {
    hide PackAll, Sort, Ranking.Insert;
    var usedFallback := true;
    var i := 0;
    while i < |r.entries|
      invariant i <= |r.entries| && (usedFallback <==> forall j | 0 <= j < i :: !IsAnchor(r.entries[j]))
    {
      if IsAnchor(r.entries[i]) {
        usedFallback := false;
      }
      i := i + 1;
    }
    var entries := if usedFallback then r.entries + [Fallback(r)] else r.entries;
    assert entries == Competing(r);
    var q0, q1, q2 := Queues(entries);
    var budget := r.budget;
    var p0 := PackTier(T0, Min(budget.t0, budget.total), Sort(EntryKey, q0));
    q1 := q1 + p0.demoted;
    var p1 := PackTier(T1, Min(budget.t1, budget.total - p0.used), Sort(EntryKey, q1));
    q2 := q2 + p1.demoted;
    var p2 := PackTier(T2, Min(budget.t2, budget.total - p0.used - p1.used), Sort(EntryKey, q2));
    s := Snapshot(Sort(ChosenKey, p0.chosen + p1.chosen + p2.chosen), (p0, p1, p2), usedFallback);
  }

  method Queues(entries: seq<Entry>) returns (q0: seq<Entry>, q1: seq<Entry>, q2: seq<Entry>)
    ensures q0 == OfTier(entries, T0) && q1 == OfTier(entries, T1) && q2 == OfTier(entries, T2)
  {
    q0, q1, q2 := [], [], [];
    var i := 0;
    while i < |entries|
      invariant i <= |entries|
      invariant q0 == OfTier(entries[..i], T0) && q1 == OfTier(entries[..i], T1) && q2 == OfTier(entries[..i], T2)
    {
      assert entries[..i + 1][..i] == entries[..i];
      match entries[i].tier {
        case T0 => q0 := q0 + [entries[i]];
        case T1 => q1 := q1 + [entries[i]];
        case T2 => q2 := q2 + [entries[i]];
      }
      i := i + 1;
    }
    assert entries[..i] == entries;
  }
}
