/** What every run of the revision store keeps. */
module MemoryProofs {
  import opened Text
  import opened MemorySpec

  // ---- Generations ----

  function GenerationsIn(revisions: seq<Revision>, namespace: string): seq<nat> {
    if revisions == [] then []
    else
      var last := revisions[|revisions| - 1];
      var before := GenerationsIn(revisions[..|revisions| - 1], namespace);
      if last.namespace == namespace then before + [last.generation] else before
  }

  function CountTo(n: nat): seq<nat> {
    if n == 0 then [] else CountTo(n - 1) + [n]
  }

  /** In every namespace the generations are 1, 2, 3 and so on, up to the current one. */
  ghost predicate GenerationsOk(revisions: seq<Revision>, generations: map<string, nat>) {
    forall ns: string :: GenerationsIn(revisions, ns) == CountTo(Generation(generations, ns))
  }

  lemma GenerationsAppend(revisions: seq<Revision>, r: Revision, ns: string)
    ensures GenerationsIn(revisions + [r], ns) ==
      if r.namespace == ns then GenerationsIn(revisions, ns) + [r.generation] else GenerationsIn(revisions, ns)
  {
    assert (revisions + [r])[..|revisions|] == revisions;
  }

  lemma GenerationsGrow(revisions: seq<Revision>, generations: map<string, nat>, r: Revision)
    requires GenerationsOk(revisions, generations) && r.generation == Generation(generations, r.namespace) + 1
    ensures GenerationsOk(revisions + [r], generations[r.namespace := r.generation])
  {
    hide GenerationsIn;
    forall ns: string
      ensures GenerationsIn(revisions + [r], ns) == CountTo(Generation(generations[r.namespace := r.generation], ns)) {
      GenerationsAppend(revisions, r, ns);
    }
  }

  // ---- Chains ----

  function RevisionsOf(revisions: seq<Revision>, memoryId: string): seq<Revision> {
    if revisions == [] then []
    else
      var last := revisions[|revisions| - 1];
      var before := RevisionsOf(revisions[..|revisions| - 1], memoryId);
      if last.memoryId == memoryId then before + [last] else before
  }

  lemma RevisionsAppend(revisions: seq<Revision>, r: Revision, m: string)
    ensures RevisionsOf(revisions + [r], m) ==
      if r.memoryId == m then RevisionsOf(revisions, m) + [r] else RevisionsOf(revisions, m)
  {
    assert (revisions + [r])[..|revisions|] == revisions;
  }

  /** One line of descent: the first has no parent, every other one the revision just before it. */
  predicate Linked(chain: seq<Revision>) {
    && (chain != [] ==> !Given(chain[0].parent))
    && (forall i | 0 < i < |chain| :: chain[i].parent == Some(chain[i - 1].id))
  }

  predicate RecordOf(record: Record, chain: seq<Revision>) {
    && chain != [] && record.current == chain[|chain| - 1].id && record.subject == chain[|chain| - 1].subject
    && (forall i | 0 <= i < |chain| :: chain[i].kind == record.kind && chain[i].scope == record.scope)
  }

  predicate ChainOk(records: map<string, Record>, m: string, chain: seq<Revision>) {
    && Linked(chain)
    && (m in records <==> chain != [])
    && (m in records ==> RecordOf(records[m], chain))
  }

  ghost predicate ChainsOk(revisions: seq<Revision>, records: map<string, Record>) {
    forall m: string :: ChainOk(records, m, RevisionsOf(revisions, m))
  }

  lemma ChainExtends(record: Record, chain: seq<Revision>, r: Revision)
    requires Linked(chain) && RecordOf(record, chain)
    requires r.parent == Some(record.current) && r.kind == record.kind && r.scope == record.scope
    ensures Linked(chain + [r]) && RecordOf(record.(subject := r.subject, current := r.id), chain + [r])
  {
  }

  lemma ChainsGrow(revisions: seq<Revision>, records: map<string, Record>, r: Revision, record: Record)
    requires ChainsOk(revisions, records)
    requires if r.memoryId in records
      then
        && r.parent == Some(records[r.memoryId].current) && r.kind == records[r.memoryId].kind && r.scope == records[r.memoryId].scope
        && record == records[r.memoryId].(subject := r.subject, current := r.id)
      else !Given(r.parent) && record.current == r.id && record.kind == r.kind && record.scope == r.scope && record.subject == r.subject
    ensures ChainsOk(revisions + [r], records[r.memoryId := record])
  {
    hide RevisionsOf, Linked, RecordOf;
    forall m: string ensures ChainOk(records[r.memoryId := record], m, RevisionsOf(revisions + [r], m)) {
      RevisionsAppend(revisions, r, m);
      var chain := RevisionsOf(revisions, m);
      assert ChainOk(records, m, chain);
      if m == r.memoryId {
        if m in records {
          ChainExtends(records[m], chain, r);
        } else {
          assert chain + [r] == [r];
          FirstOfChain(record, r);
        }
      }
    }
  }

  lemma FirstOfChain(record: Record, r: Revision)
    requires !Given(r.parent) && record.current == r.id && record.kind == r.kind && record.scope == r.scope && record.subject == r.subject
    ensures Linked([r]) && RecordOf(record, [r])
  {
  }

  // ---- Rows ----

  predicate IdsOk(revisions: seq<Revision>) {
    && (forall i | 0 <= i < |revisions| :: revisions[i].id != "")
    && (forall i, j | 0 <= i < j < |revisions| :: revisions[i].id != revisions[j].id)
    && (forall i, j | 0 <= i < j < |revisions| :: revisions[i].candidateId != revisions[j].candidateId)
  }

  predicate CandidatesOk(candidates: map<string, Candidate>) {
    forall id | id in candidates :: candidates[id].id == id && ValidCandidate(candidates[id])
  }

  predicate MadeFrom(r: Revision, c: Candidate) {
    && c.status == Committed && r.namespace == c.namespace && r.kind == c.kind && r.scope == c.scope
    && r.subject == c.subject && r.content == c.content && r.parent == c.baseRevision
  }

  predicate HasCandidate(revisions: seq<Revision>, id: string) {
    exists i | 0 <= i < |revisions| :: revisions[i].candidateId == id
  }

  /** Every revision says what its candidate, now committed, said. */
  predicate CommittedOk(candidates: map<string, Candidate>, revisions: seq<Revision>) {
    forall i | 0 <= i < |revisions| ::
      revisions[i].candidateId in candidates && MadeFrom(revisions[i], candidates[revisions[i].candidateId])
  }

  /** The decision that let a candidate in: either the policy itself would have committed it, or somebody
      with a name approved one that the policy leaves to review. */
  predicate Warrants(c: Candidate, ruling: Ruling) {
    && ruling.decision.candidateId == c.id
    && match ruling.decision.action
       case AutoCommit => Classify(c) == AutoCommit
       case RequireReview =>
         && Classify(c) in {AutoCommit, RequireReview}
         && ruling.approvedBy.Some? && Strip(ruling.approvedBy.value) != ""
       case _ => false
  }

  predicate Warranted(rulings: seq<Ruling>, c: Candidate) {
    exists i | 0 <= i < |rulings| :: Warrants(c, rulings[i])
  }

  predicate WarrantsOk(candidates: map<string, Candidate>, revisions: seq<Revision>, rulings: seq<Ruling>) {
    forall i | 0 <= i < |revisions| && revisions[i].candidateId in candidates ::
      Warranted(rulings, candidates[revisions[i].candidateId])
  }

  ghost predicate Inv(s: State) {
    && GenerationsOk(s.revisions, s.generations) && ChainsOk(s.revisions, s.records)
    && IdsOk(s.revisions) && CandidatesOk(s.candidates) && CommittedOk(s.candidates, s.revisions)
    && WarrantsOk(s.candidates, s.revisions, s.rulings)
  }

  lemma EmptyInv()
    ensures Inv(Empty())
  {
    hide Linked;
    assert Linked([]) by { LinkedNothing(); }
  }

  lemma LinkedNothing()
    ensures Linked([])
  {
  }

  // ---- Steps ----

  lemma StatusChange(candidates: map<string, Candidate>, revisions: seq<Revision>, rulings: seq<Ruling>, c: Candidate)
    requires CandidatesOk(candidates) && CommittedOk(candidates, revisions) && WarrantsOk(candidates, revisions, rulings)
    requires ValidCandidate(c)
    requires c.id !in candidates || candidates[c.id].status != Committed
    ensures var more := candidates[c.id := c];
      CandidatesOk(more) && CommittedOk(more, revisions) && WarrantsOk(more, revisions, rulings)
  {
    hide Warranted, ValidCandidate;
  }

  lemma AddKeeps(s: State, c: Candidate)
    requires Inv(s) && Added(s, c).Ok?
    ensures Inv(Added(s, c).value)
  {
    hide GenerationsOk, ChainsOk, IdsOk, CandidatesOk, CommittedOk, WarrantsOk;
    if c.id !in s.candidates {
      StatusChange(s.candidates, s.revisions, s.rulings, c);
    }
  }

  lemma RulingsGrow(candidates: map<string, Candidate>, revisions: seq<Revision>, rulings: seq<Ruling>, ruling: Ruling)
    requires WarrantsOk(candidates, revisions, rulings)
    ensures WarrantsOk(candidates, revisions, rulings + [ruling])
  {
    hide Warrants;
    forall k | 0 <= k < |revisions| && revisions[k].candidateId in candidates
      ensures Warranted(rulings + [ruling], candidates[revisions[k].candidateId]) {
      var c := candidates[revisions[k].candidateId];
      var i :| 0 <= i < |rulings| && Warrants(c, rulings[i]);
      assert (rulings + [ruling])[i] == rulings[i];
    }
  }

  /** A decision that stands and commits is a warrant. */
  lemma UnopposedWarrants(c: Candidate, d: Decision, approvedBy: Option<string>)
    requires Objection(c, d, approvedBy).None? && NonCommitStatus(d, approvedBy).None? && d.candidateId == c.id
    ensures Warrants(c.(status := Committed), Ruling(d, approvedBy))
  {
    hide Classify, Strip;
    SameClass(c, Committed);
  }

  lemma SameClass(c: Candidate, status: Status)
    ensures Classify(c.(status := status)) == Classify(c)
  {
  }

  lemma FreshIds(revisions: seq<Revision>, r: Revision)
    requires IdsOk(revisions) && r.id != "" && !HasRevision(revisions, r.id) && !HasCandidate(revisions, r.candidateId)
    ensures IdsOk(revisions + [r])
  {
  }

  lemma NotYetCommitted(candidates: map<string, Candidate>, revisions: seq<Revision>, id: string)
    requires CommittedOk(candidates, revisions) && (id in candidates ==> candidates[id].status != Committed)
    ensures !HasCandidate(revisions, id)
  {
  }

  lemma CommitRows(candidates: map<string, Candidate>, revisions: seq<Revision>, c: Candidate, r: Revision)
    requires CandidatesOk(candidates) && CommittedOk(candidates, revisions)
    requires c.id in candidates && candidates[c.id] == c && c.status != Committed
    requires r.candidateId == c.id && MadeFrom(r, c.(status := Committed))
    ensures CandidatesOk(candidates[c.id := c.(status := Committed)])
    ensures CommittedOk(candidates[c.id := c.(status := Committed)], revisions + [r])
  {
    var more, all := candidates[c.id := c.(status := Committed)], revisions + [r];
    assert all[|revisions|] == r;
    forall i | 0 <= i < |all| ensures all[i].candidateId in more && MadeFrom(all[i], more[all[i].candidateId]) {
      if i < |revisions| {
        assert all[i] == revisions[i];
      }
    }
  }

  lemma CommitWarrant(candidates: map<string, Candidate>, revisions: seq<Revision>, rulings: seq<Ruling>, c: Candidate, r: Revision, ruling: Ruling)
    requires WarrantsOk(candidates, revisions, rulings) && Warrants(c.(status := Committed), ruling)
    requires r.candidateId == c.id
    ensures WarrantsOk(candidates[c.id := c.(status := Committed)], revisions + [r], rulings + [ruling])
  {
    hide Warrants;
    RulingsGrow(candidates, revisions, rulings, ruling);
    assert (rulings + [ruling])[|rulings|] == ruling;
    assert Warranted(rulings + [ruling], c.(status := Committed));
    hide Warranted;
    var all := revisions + [r];
    assert forall k | 0 <= k < |revisions| :: all[k] == revisions[k];
  }

  lemma CommitKeeps(s: State, d: Decision, approvedBy: Option<string>, newMemory: string, newRevision: string)
    requires Inv(s) && d.candidateId in s.candidates && s.candidates[d.candidateId].status in {Pending, ReviewRequired}
    requires var c := s.candidates[d.candidateId];
      Objection(c, d, approvedBy).None? && NonCommitStatus(d, approvedBy).None?
    requires Commit(Ruled(s, d, approvedBy), s.candidates[d.candidateId], newMemory, newRevision).Ok?
    ensures Inv(Commit(Ruled(s, d, approvedBy), s.candidates[d.candidateId], newMemory, newRevision).value.0)
  {
    hide GenerationsOk, ChainsOk, IdsOk, CommittedOk, WarrantsOk, HasCandidate, HasRevision, Written, Destination, Revised;
    var c := s.candidates[d.candidateId];
    assert c.id == d.candidateId && ValidCandidate(c);
    hide CandidatesOk, Objection, NonCommitStatus, Warrants, ValidCandidate;
    UnopposedWarrants(c, d, approvedBy);
    var s1 := Ruled(s, d, approvedBy);
    var m := Destination(s1, c, newMemory).value;
    assert Revised(s1, c, m, newRevision).candidateId == c.id by { RevisedFrom(s1, c, m, newRevision); }
    CommitWarrant(s.candidates, s.revisions, s.rulings, c, Revised(s1, c, m, newRevision), Ruling(d, approvedBy));
    NotYetCommitted(s.candidates, s.revisions, c.id);
    WrittenKeeps(s1, c, m, newMemory, newRevision);
  }

  lemma RevisedFrom(s: State, c: Candidate, memoryId: string, revisionId: string)
    ensures Revised(s, c, memoryId, revisionId).candidateId == c.id
  {
  }

  /** A revision written where it belongs keeps the rows in order. */
  lemma WrittenKeeps(s: State, c: Candidate, m: string, newMemory: string, newRevision: string)
    requires GenerationsOk(s.revisions, s.generations) && ChainsOk(s.revisions, s.records)
    requires IdsOk(s.revisions) && CandidatesOk(s.candidates) && CommittedOk(s.candidates, s.revisions)
    requires c.id in s.candidates && s.candidates[c.id] == c && c.status != Committed && !HasCandidate(s.revisions, c.id)
    requires ValidCandidate(c) && Destination(s, c, newMemory) == Ok(m)
    requires newRevision != "" && !HasRevision(s.revisions, newRevision)
    ensures var t := Written(s, c, Revised(s, c, m, newRevision));
      && GenerationsOk(t.revisions, t.generations) && ChainsOk(t.revisions, t.records)
      && IdsOk(t.revisions) && CandidatesOk(t.candidates) && CommittedOk(t.candidates, t.revisions)
      && t.rulings == s.rulings && t.candidates == s.candidates[c.id := c.(status := Committed)]
      && t.revisions == s.revisions + [Revised(s, c, m, newRevision)]
  {
    hide GenerationsOk, ChainsOk, IdsOk, CommittedOk, HasCandidate, HasRevision, CandidatesOk;
    var r := Revised(s, c, m, newRevision);
    CommitRows(s.candidates, s.revisions, c, r);
    FreshIds(s.revisions, r);
    GenerationsGrow(s.revisions, s.generations, r);
    ChainsGrow(s.revisions, s.records, r, Written(s, c, r).records[m]);
  }

  lemma ApplyKeeps(s: State, d: Decision, approvedBy: Option<string>, newMemory: string, newRevision: string)
    requires Inv(s) && Applied(s, d, approvedBy, newMemory, newRevision).Ok?
    ensures Inv(Applied(s, d, approvedBy, newMemory, newRevision).value.0)
  {
    hide GenerationsOk, ChainsOk, IdsOk, CommittedOk, WarrantsOk, Commit, Objection;
    var c := s.candidates[d.candidateId];
    if c.status in {Pending, ReviewRequired} {
      match NonCommitStatus(d, approvedBy)
      case None => CommitKeeps(s, d, approvedBy, newMemory, newRevision);
      case Some(status) =>
        RulingsGrow(s.candidates, s.revisions, s.rulings, Ruling(d, approvedBy));
        assert ValidCandidate(c) && c.id == d.candidateId;
        hide CandidatesOk;
        StatusChange(s.candidates, s.revisions, s.rulings + [Ruling(d, approvedBy)], c.(status := status));
    }
  }

  lemma NextKeeps(s: State, step: Step)
    requires Inv(s)
    ensures Inv(Next(s, step))
  {
    hide Inv, Added, Applied;
    match step
    case Add(c) => if Added(s, c).Ok? { AddKeeps(s, c); }
    case Apply(d, approver, m, r) => if Applied(s, d, approver, m, r).Ok? { ApplyKeeps(s, d, approver, m, r); }
  }

  lemma {:induction false} RunKeeps(s: State, steps: seq<Step>)
    requires Inv(s)
    ensures Inv(Execute(s, steps))
    decreases |steps|
  {
    hide Inv, Next;
    if steps != [] {
      NextKeeps(s, steps[0]);
      RunKeeps(Next(s, steps[0]), steps[1..]);
    }
  }

  // ---- Whole runs ----

  /** In every namespace the generations ever written are exactly 1 up to the current one, in order. */
  lemma GenerationsAreDense(steps: seq<Step>, namespace: string)
    ensures var s := Execute(Empty(), steps);
      GenerationsIn(s.revisions, namespace) == CountTo(Generation(s.generations, namespace))
  {
    hide Execute, ChainsOk, IdsOk, CommittedOk, WarrantsOk, GenerationsIn, CountTo;
    EmptyInv();
    RunKeeps(Empty(), steps);
  }

  /** The revisions of a memory are one unbranched line of parents that ends at its current revision. */
  lemma MemoryIsOneChain(steps: seq<Step>, memoryId: string)
    ensures var s := Execute(Empty(), steps);
      ChainOk(s.records, memoryId, RevisionsOf(s.revisions, memoryId)) && IdsOk(s.revisions)
  {
    hide Execute, GenerationsOk, CommittedOk, WarrantsOk, RevisionsOf, ChainOk;
    EmptyInv();
    RunKeeps(Empty(), steps);
  }

  /** Whatever was committed was let in by the policy or by a named approver, never against a rejection or
      a quarantine, and the revision says what its candidate said. */
  lemma CommitsAreWarranted(steps: seq<Step>, i: nat)
    requires i < |Execute(Empty(), steps).revisions|
    ensures var s := Execute(Empty(), steps); var r := s.revisions[i];
      && r.candidateId in s.candidates
      && var c := s.candidates[r.candidateId];
         && MadeFrom(r, c) && Classify(c) !in {Reject, Quarantine}
         && exists j | 0 <= j < |s.rulings| :: Warrants(c, s.rulings[j])
  {
    hide Execute, GenerationsOk, ChainsOk, IdsOk, Classify, Warrants;
    EmptyInv();
    RunKeeps(Empty(), steps);
    var s := Execute(Empty(), steps);
    var c := s.candidates[s.revisions[i].candidateId];
    var j :| 0 <= j < |s.rulings| && Warrants(c, s.rulings[j]);
    WarrantClass(c, s.rulings[j]);
  }

  lemma WarrantClass(c: Candidate, ruling: Ruling)
    requires Warrants(c, ruling)
    ensures Classify(c) !in {Reject, Quarantine}
  {
    hide Classify, Strip;
  }

  lemma {:induction false} FindFinds(revisions: seq<Revision>, id: string)
    requires HasCandidate(revisions, id)
    ensures FindByCandidate(revisions, id).Some? && FindByCandidate(revisions, id).value in revisions
    ensures FindByCandidate(revisions, id).value.candidateId == id
  {
    if revisions[0].candidateId != id {
      var i :| 0 <= i < |revisions| && revisions[i].candidateId == id;
      assert revisions[1..][i - 1] == revisions[i];
      FindFinds(revisions[1..], id);
    }
  }

  lemma {:induction false} FindFindsNothing(revisions: seq<Revision>, id: string)
    requires !HasCandidate(revisions, id)
    ensures FindByCandidate(revisions, id).None?
  {
    if revisions != [] {
      assert revisions[0].candidateId != id;
      assert forall i | 0 <= i < |revisions| - 1 :: revisions[1..][i] == revisions[i + 1];
      FindFindsNothing(revisions[1..], id);
    }
  }

  // ---- Where a committed candidate came from ----

  /** The proposal under which an identifier was first added. */
  function FirstAdded(steps: seq<Step>, id: string): Option<Candidate> {
    if steps == [] then None
    else if steps[0].Add? && steps[0].candidate.id == id && ValidCandidate(steps[0].candidate) then Some(steps[0].candidate)
    else FirstAdded(steps[1..], id)
  }

  /** A candidate that was added as committed already never gets a revision; any other has one once it is
      committed. */
  predicate Origin(s: State, id: string, first: Option<Candidate>) {
    match first
    case None => id !in s.candidates
    case Some(c) =>
      && id in s.candidates
      && (c.status == Committed ==> s.candidates[id].status == Committed && !HasCandidate(s.revisions, id))
      && (c.status != Committed && s.candidates[id].status == Committed ==> HasCandidate(s.revisions, id))
  }

  lemma OriginOfAdded(s: State, c: Candidate, id: string, first: Option<Candidate>)
    requires Inv(s) && Origin(s, id, first)
    ensures Origin(Next(s, Add(c)), id,
                   if first.None? && c.id == id && ValidCandidate(c) then Some(c) else first)
  {
    hide GenerationsOk, ChainsOk, IdsOk, CandidatesOk, WarrantsOk, HasCandidate;
    if id !in s.candidates {
      NotYetCommitted(s.candidates, s.revisions, id);
    }
  }

  lemma HasCandidateMore(revisions: seq<Revision>, r: Revision, id: string)
    ensures HasCandidate(revisions + [r], id) <==> HasCandidate(revisions, id) || r.candidateId == id
  {
    var all := revisions + [r];
    assert all[|revisions|] == r;
    if HasCandidate(revisions, id) {
      var i :| 0 <= i < |revisions| && revisions[i].candidateId == id;
      assert all[i] == revisions[i];
    }
  }

  lemma CommitRecords(s: State, c: Candidate, newMemory: string, newRevision: string, id: string)
    requires Commit(s, c, newMemory, newRevision).Ok?
    ensures var t := Commit(s, c, newMemory, newRevision).value.0;
      && t.candidates == s.candidates[c.id := c.(status := Committed)]
      && (HasCandidate(t.revisions, id) <==> HasCandidate(s.revisions, id) || c.id == id)
  {
    hide HasCandidate, HasRevision, Destination;
    var m := Destination(s, c, newMemory).value;
    HasCandidateMore(s.revisions, Revised(s, c, m, newRevision), id);
  }

  lemma OriginOfApplied(s: State, d: Decision, approvedBy: Option<string>, m: string, r: string, id: string, first: Option<Candidate>)
    requires Inv(s) && Origin(s, id, first)
    ensures Origin(Next(s, Apply(d, approvedBy, m, r)), id, first)
  {
    hide GenerationsOk, ChainsOk, IdsOk, CommittedOk, WarrantsOk, HasCandidate, Commit, Objection, FindByCandidate, NonCommitStatus;
    if d.candidateId in s.candidates {
      var c := s.candidates[d.candidateId];
      assert c.id == d.candidateId;
      hide CandidatesOk;
      var s1 := Ruled(s, d, approvedBy);
      if Commit(s1, c, m, r).Ok? {
        CommitRecords(s1, c, m, r, id);
      }
      NonCommitIsOpen(d, approvedBy);
    }
  }

  lemma NonCommitIsOpen(d: Decision, approvedBy: Option<string>)
    ensures NonCommitStatus(d, approvedBy) != Some(Committed)
  {
  }

  lemma {:induction false} OriginOfRun(s: State, steps: seq<Step>, id: string, first: Option<Candidate>)
    requires Inv(s) && Origin(s, id, first)
    ensures Origin(Execute(s, steps), id, if first.Some? then first else FirstAdded(steps, id))
    decreases |steps|
  {
    hide Inv, Origin, Next;
    if steps != [] {
      NextKeeps(s, steps[0]);
      match steps[0]
      case Add(c) =>
        OriginOfAdded(s, c, id, first);
        OriginOfRun(Next(s, steps[0]), steps[1..], id, if first.None? && c.id == id && ValidCandidate(c) then Some(c) else first);
      case Apply(d, approver, m, r) =>
        OriginOfApplied(s, d, approver, m, r, id, first);
        OriginOfRun(Next(s, steps[0]), steps[1..], id, first);
    }
  }

  /** Any decision about a committed candidate changes nothing. It answers with the one revision made from it,
      except exactly when the candidate was first added as committed already: then there is none. */
  lemma ReapplyingChangesNothing(steps: seq<Step>, d: Decision, approvedBy: Option<string>, m: string, id: string)
    requires var s := Execute(Empty(), steps);
      d.candidateId in s.candidates && s.candidates[d.candidateId].status == Committed
    ensures var s := Execute(Empty(), steps); var a := Applied(s, d, approvedBy, m, id);
      var first := FirstAdded(steps, d.candidateId);
      && Next(s, Apply(d, approvedBy, m, id)) == s && first.Some?
      && (first.value.status == Committed ==> a == Err(MissingRevision))
      && (first.value.status != Committed ==>
            && a.Ok? && a.value.0 == s && a.value.1.status == Committed && a.value.1.revision.Some?
            && var r := a.value.1.revision.value;
               r in s.revisions && r.candidateId == d.candidateId && r.generation == a.value.1.generation)
  {
    hide Execute, Inv, FindByCandidate, HasCandidate, Commit, FirstAdded;
    EmptyInv();
    OriginOfRun(Empty(), steps, d.candidateId, None);
    var s := Execute(Empty(), steps);
    if HasCandidate(s.revisions, d.candidateId) {
      FindFinds(s.revisions, d.candidateId);
    } else {
      FindFindsNothing(s.revisions, d.candidateId);
    }
  }

  /** A candidate added as committed already: whatever is decided about it is the missing-revision error. */
  lemma ClaimedCommitHasNoRevision(c: Candidate, action: Action, approvedBy: Option<string>, m: string, r: string)
    requires ValidCandidate(c) && c.status == Committed
    ensures Applied(Execute(Empty(), [Add(c)]), Decision(c.id, action), approvedBy, m, r) == Err(MissingRevision)
  {
    var steps := [Add(c)];
    assert steps[1..] == [];
    assert Execute(Empty(), steps) == Next(Empty(), Add(c));
  }

  /** The kind check before a commit never fires: such candidates are stopped by the policy. */
  lemma PolicyStopsForbiddenKinds(c: Candidate, d: Decision, approvedBy: Option<string>)
    requires Objection(c, d, approvedBy).None? && NonCommitStatus(d, approvedBy).None?
    ensures c.kind !in {ProceduralSkill, Policy, Security}
  {
  }

  // ---- Descent and generations ----

  predicate Rising(gens: seq<nat>) {
    forall i, j | 0 <= i < j < |gens| :: gens[i] < gens[j]
  }

  lemma {:induction false} CountToAt(n: nat, i: nat)
    requires i < n
    ensures |CountTo(n)| == n && CountTo(n)[i] == i + 1
  {
    if n > 1 {
      CountToAt(n - 1, if i < n - 1 then i else 0);
    }
  }

  ghost predicate AllRising(revisions: seq<Revision>) {
    forall ns: string :: Rising(GenerationsIn(revisions, ns))
  }

  lemma CountToRises(n: nat)
    ensures Rising(CountTo(n))
  {
    if n > 0 {
      CountToAt(n, 0);
    }
    forall i | 0 <= i < n ensures |CountTo(n)| == n && CountTo(n)[i] == i + 1 {
      CountToAt(n, i);
    }
  }

  lemma PrefixRises(revisions: seq<Revision>, r: Revision)
    requires AllRising(revisions + [r])
    ensures AllRising(revisions)
  {
    hide GenerationsIn;
    forall ns: string ensures Rising(GenerationsIn(revisions, ns)) {
      GenerationsAppend(revisions, r, ns);
      var gens, more := GenerationsIn(revisions, ns), GenerationsIn(revisions + [r], ns);
      assert Rising(more);
      assert forall i | 0 <= i < |gens| :: gens[i] == more[i];
    }
  }

  lemma {:induction false} ChainMember(revisions: seq<Revision>, m: string, i: nat)
    requires i < |RevisionsOf(revisions, m)|
    ensures var r := RevisionsOf(revisions, m)[i]; r.generation in GenerationsIn(revisions, r.namespace)
  {
    var n := |revisions| - 1;
    var before := revisions[..n];
    if i < |RevisionsOf(before, m)| {
      ChainMember(before, m, i);
    }
  }

  lemma {:induction false} ChainRises(revisions: seq<Revision>, m: string, i: nat, j: nat)
    requires AllRising(revisions) && i < j < |RevisionsOf(revisions, m)|
    requires RevisionsOf(revisions, m)[i].namespace == RevisionsOf(revisions, m)[j].namespace
    ensures RevisionsOf(revisions, m)[i].generation < RevisionsOf(revisions, m)[j].generation
  {
    hide GenerationsIn;
    var n := |revisions| - 1;
    var before, r := revisions[..n], revisions[n];
    assert revisions == before + [r];
    RevisionsAppend(before, r, m);
    PrefixRises(before, r);
    if j < |RevisionsOf(before, m)| {
      ChainRises(before, m, i, j);
    } else {
      ChainMember(before, m, i);
      GenerationsAppend(before, r, r.namespace);
      var gens := GenerationsIn(before, r.namespace);
      var k :| 0 <= k < |gens| && gens[k] == RevisionsOf(before, m)[i].generation;
      assert Rising(gens + [r.generation]);
      assert (gens + [r.generation])[k] < (gens + [r.generation])[|gens|];
    }
  }

  /** Within one namespace a later revision of a memory has a later generation. */
  lemma DescentRises(steps: seq<Step>, m: string, i: nat, j: nat)
    requires var chain := RevisionsOf(Execute(Empty(), steps).revisions, m);
      i < j < |chain| && chain[i].namespace == chain[j].namespace
    ensures var chain := RevisionsOf(Execute(Empty(), steps).revisions, m); chain[i].generation < chain[j].generation
  {
    hide Execute, RevisionsOf, GenerationsIn, CountTo, Rising;
    var s := Execute(Empty(), steps);
    forall ns: string ensures Rising(GenerationsIn(s.revisions, ns)) {
      GenerationsAreDense(steps, ns);
      CountToRises(Generation(s.generations, ns));
    }
    ChainRises(s.revisions, m, i, j);
  }

  // ---- When a candidate is committed ----

  /** The candidate revises the current revision of a memory of its kind and scope, or opens a new one. */
  predicate UpToDate(s: State, c: Candidate, newMemory: string) {
    if Given(c.baseMemory) then
      var m := c.baseMemory.value;
      && m in s.records && c.baseRevision == Some(s.records[m].current)
      && s.records[m].kind == c.kind && s.records[m].scope == c.scope
    else newMemory != "" && newMemory !in s.records
  }

  lemma CommitSucceeds(s: State, c: Candidate, newMemory: string, newRevision: string)
    requires c.kind !in {ProceduralSkill, Policy, Security}
    ensures Commit(s, c, newMemory, newRevision).Ok? <==>
      UpToDate(s, c, newMemory) && newRevision != "" && !HasRevision(s.revisions, newRevision)
    ensures Commit(s, c, newMemory, newRevision).Ok? ==> Commit(s, c, newMemory, newRevision).value.1.status == Committed
  {
    hide HasRevision, Written, Revised;
  }

  lemma WarrantsExactly(c: Candidate, d: Decision, approvedBy: Option<string>)
    requires d.candidateId == c.id
    ensures Warrants(c, Ruling(d, approvedBy)) <==>
      Objection(c, d, approvedBy).None? && NonCommitStatus(d, approvedBy).None?
  {
    hide Classify, Strip;
  }

  /** An open candidate is committed exactly when the decision warrants it and it is up to date. */
  lemma CommitsExactly(s: State, d: Decision, approvedBy: Option<string>, newMemory: string, newRevision: string)
    requires Inv(s) && d.candidateId in s.candidates && s.candidates[d.candidateId].status in {Pending, ReviewRequired}
    ensures var a := Applied(s, d, approvedBy, newMemory, newRevision); var c := s.candidates[d.candidateId];
      (a.Ok? && a.value.1.status == Committed) <==>
        && Warrants(c, Ruling(d, approvedBy)) && UpToDate(s, c, newMemory)
        && newRevision != "" && !HasRevision(s.revisions, newRevision)
  {
    var c := s.candidates[d.candidateId];
    assert c.id == d.candidateId;
    hide Inv, HasRevision, Objection, Warrants, UpToDate, Commit;
    WarrantsExactly(c, d, approvedBy);
    SameRows(s, d, approvedBy, c, newMemory);
    if Objection(c, d, approvedBy).None? && NonCommitStatus(d, approvedBy).None? {
      PolicyStopsForbiddenKinds(c, d, approvedBy);
      CommitSucceeds(Ruled(s, d, approvedBy), c, newMemory, newRevision);
    }
  }

  lemma SameRows(s: State, d: Decision, approvedBy: Option<string>, c: Candidate, newMemory: string)
    ensures UpToDate(Ruled(s, d, approvedBy), c, newMemory) <==> UpToDate(s, c, newMemory)
  {
  }

  lemma {:induction false} CurrentIsStored(revisions: seq<Revision>, m: string)
    requires RevisionsOf(revisions, m) != []
    ensures HasRevision(revisions, RevisionsOf(revisions, m)[|RevisionsOf(revisions, m)| - 1].id)
  {
    var n := |revisions| - 1;
    if revisions[n].memoryId != m {
      CurrentIsStored(revisions[..n], m);
      var id := RevisionsOf(revisions[..n], m)[|RevisionsOf(revisions[..n], m)| - 1].id;
      var i :| 0 <= i < n && revisions[..n][i].id == id;
      assert revisions[i].id == id;
    }
  }

  /** Of two candidates that revise the same revision, the first to be committed wins: the other is stale
      from then on. */
  lemma FirstCommitWins(s: State, first: Candidate, second: Candidate, newMemory: string, newRevision: string, other: string)
    requires Inv(s) && Given(first.baseMemory) && Commit(s, first, newMemory, newRevision).Ok?
    requires second.baseMemory == first.baseMemory && second.baseRevision == first.baseRevision
    requires second.kind !in {ProceduralSkill, Policy, Security}
    ensures Destination(Commit(s, first, newMemory, newRevision).value.0, second, other) == Err(BaseStale)
  {
    hide GenerationsOk, IdsOk, CommittedOk, WarrantsOk, CandidatesOk, RevisionsOf, Linked, HasRevision;
    var m := first.baseMemory.value;
    assert ChainOk(s.records, m, RevisionsOf(s.revisions, m));
    CurrentIsStored(s.revisions, m);
  }

  // ---- Descent across namespaces ----

  lemma {:induction false} ChainIsStored(revisions: seq<Revision>, m: string, i: nat)
    requires i < |RevisionsOf(revisions, m)|
    ensures RevisionsOf(revisions, m)[i] in revisions && RevisionsOf(revisions, m)[i].memoryId == m
  {
    var n := |revisions| - 1;
    if i < |RevisionsOf(revisions[..n], m)| {
      ChainIsStored(revisions[..n], m, i);
    }
  }

  lemma AtMostCurrent(revisions: seq<Revision>, generations: map<string, nat>, g: nat, ns: string)
    requires GenerationsOk(revisions, generations) && g in GenerationsIn(revisions, ns)
    ensures g <= Generation(generations, ns)
  {
    hide GenerationsIn, CountTo;
    var n := Generation(generations, ns);
    assert GenerationsIn(revisions, ns) == CountTo(n);
    CountToBounded(n, g);
  }

  lemma {:induction false} CountToBounded(n: nat, g: nat)
    requires g in CountTo(n)
    ensures g <= n
  {
    if g != n {
      CountToBounded(n - 1, g);
    }
  }

  /** The parent of a revision about to be written: the current revision of its memory. */
  lemma CommitDescends(s: State, c: Candidate, newMemory: string, newRevision: string) returns (parent: Revision)
    requires Inv(s) && ValidCandidate(c) && Given(c.baseRevision) && Commit(s, c, newMemory, newRevision).Ok?
    ensures var r := Commit(s, c, newMemory, newRevision).value.1.revision.value;
      && parent in s.revisions && Some(parent.id) == r.parent && parent.memoryId == r.memoryId
      && (parent.generation < r.generation <==> parent.generation <= Generation(s.generations, c.namespace))
      && (parent.namespace == c.namespace ==> parent.generation < r.generation)
  {
    hide IdsOk, CandidatesOk, CommittedOk, WarrantsOk, RevisionsOf, Linked, HasRevision, GenerationsOk, Written;
    var m := c.baseMemory.value;
    var chain := RevisionsOf(s.revisions, m);
    assert ChainOk(s.records, m, chain);
    var last := |chain| - 1;
    parent := chain[last];
    ChainIsStored(s.revisions, m, last);
    ChainMember(s.revisions, m, last);
    AtMostCurrent(s.revisions, s.generations, parent.generation, parent.namespace);
  }

  /** In every run, a revision that is written has a later generation than its parent exactly when its
      namespace had already come as far as the parent; within one namespace it always has. */
  lemma GenerationRisesExactly(steps: seq<Step>, d: Decision, approvedBy: Option<string>, m: string, id: string)
    returns (parent: Revision)
    requires var s := Execute(Empty(), steps); var a := Applied(s, d, approvedBy, m, id);
      && a.Ok? && a.value.0 != s && a.value.1.revision.Some? && Given(a.value.1.revision.value.parent)
    ensures var s := Execute(Empty(), steps); var r := Applied(s, d, approvedBy, m, id).value.1.revision.value;
      && parent in s.revisions && Some(parent.id) == r.parent && parent.memoryId == r.memoryId
      && (parent.generation < r.generation <==> parent.generation <= Generation(s.generations, r.namespace))
      && (parent.namespace == r.namespace ==> parent.generation < r.generation)
  {
    hide Execute, GenerationsOk, ChainsOk, IdsOk, CommittedOk, WarrantsOk, Objection, FindByCandidate, Written, HasRevision;
    EmptyInv();
    RunKeeps(Empty(), steps);
    var s := Execute(Empty(), steps);
    var c := s.candidates[d.candidateId];
    RulingKeeps(s, d, approvedBy);
    parent := CommitDescends(Ruled(s, d, approvedBy), c, m, id);
  }

  lemma RulingKeeps(s: State, d: Decision, approvedBy: Option<string>)
    requires Inv(s)
    ensures Inv(Ruled(s, d, approvedBy))
  {
    hide GenerationsOk, ChainsOk, IdsOk, CandidatesOk, CommittedOk, WarrantsOk;
    RulingsGrow(s.candidates, s.revisions, s.rulings, Ruling(d, approvedBy));
  }

  const NOTE := Candidate("a", "n", SemanticFact, Scope("owner", "o"), "s", "t", OwnerStated, true, 1.0, Public,
                          None, None, [], Pending)

  const REVISED_NOTE := NOTE.(id := "b", namespace := "k", baseMemory := Some("m"), baseRevision := Some("r"))

  /** It can fail across namespaces: a note of one namespace is revised from another that is still empty,
      and both revisions have generation 1. */
  lemma GenerationsCanStall()
    ensures var s := Execute(Empty(), [Add(NOTE), Apply(Decision("a", AutoCommit), None, "m", "r"),
                                       Add(REVISED_NOTE), Apply(Decision("b", AutoCommit), None, "x", "q")]);
      |s.revisions| == 2 && s.revisions[1].parent == Some(s.revisions[0].id) && s.revisions[0].memoryId == s.revisions[1].memoryId
      && s.revisions[0].generation == s.revisions[1].generation == 1
  {
    var steps := [Add(NOTE), Apply(Decision("a", AutoCommit), None, "m", "r"), Add(REVISED_NOTE), Apply(Decision("b", AutoCommit), None, "x", "q")];
    var s1 := Next(Empty(), steps[0]);
    var s2 := Next(s1, steps[1]);
    NoteIsCommitted(s1);
    var s3 := Next(s2, steps[2]);
    RevisedNoteIsCommitted(s2);
    var s4 := Next(s3, steps[3]);
    assert s4.revisions == s2.revisions + [Revised(s3, REVISED_NOTE, "m", "q")];
    hide Next;
    assert steps[1..][0] == steps[1] && steps[1..][1..][0] == steps[2] && steps[1..][1..][1..][0] == steps[3];
    assert steps[1..][1..][1..][1..] == [];
    assert Execute(Empty(), steps) == Execute(s1, steps[1..]) == Execute(s2, steps[1..][1..]);
    assert Execute(s2, steps[1..][1..]) == Execute(s3, steps[1..][1..][1..]) == s4;
  }

  lemma NoteIsCommitted(s: State)
    requires s == Empty().(candidates := map["a" := NOTE])
    ensures var t := Next(s, Apply(Decision("a", AutoCommit), None, "m", "r"));
      && t.revisions == [Revised(s, NOTE, "m", "r")] && t.generations == map["n" := 1] && "b" !in t.candidates
      && t.records == map["m" := Record("n", SemanticFact, Scope("owner", "o"), "s", "r")]
  {
  }

  lemma RevisedNoteIsCommitted(s: State)
    requires |s.revisions| == 1 && s.revisions[0].id == "r" && s.generations == map["n" := 1] && "b" !in s.candidates
    requires s.records == map["m" := Record("n", SemanticFact, Scope("owner", "o"), "s", "r")]
    ensures var s1 := Next(s, Add(REVISED_NOTE));
      Next(s1, Apply(Decision("b", AutoCommit), None, "x", "q")).revisions == s.revisions + [Revised(s1, REVISED_NOTE, "m", "q")]
      && Revised(s1, REVISED_NOTE, "m", "q").generation == 1
  {
  }
}
