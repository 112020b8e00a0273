/** The admission policy in terms of the candidates themselves: what can never be remembered, what is
    remembered without asking, and what every decision does. */
module MemoryPolicy {
  import opened Text
  import opened MemorySpec
  import opened MemoryProofs

  /** Policies, security notes and skills are not personal memory. */
  predicate Forbidden(c: Candidate) {
    c.kind == Policy || c.kind == Security || c.kind == ProceduralSkill
  }

  /** It comes from the public or from an unverified import. */
  predicate Untrusted(c: Candidate) {
    c.trust == PublicViewer || c.trust == UnverifiedImport
  }

  /** It may be remembered without review. */
  predicate Automatic(c: Candidate) {
    && (c.kind == UserProfile || c.kind == Relationship || c.kind == SemanticFact || c.kind == Episode || c.kind == ActiveTask)
    && (c.trust == OwnerAuthored || c.trust == OwnerStated || c.trust == TrustedOperator)
    && c.consented && c.confidence >= 0.9
    && (c.sensitivity == Public || c.sensitivity == Internal) && c.contradictions == []
  }

  lemma ClassifyExactly(c: Candidate)
    ensures Classify(c) == Reject <==> Forbidden(c)
    ensures Classify(c) == Quarantine <==> !Forbidden(c) && Untrusted(c)
    ensures Classify(c) == AutoCommit <==> Automatic(c)
  {
  }

  /** In every run, nothing forbidden and nothing from an untrusted source has become a revision. */
  lemma NothingUntrustedIsRemembered(steps: seq<Step>, i: nat)
    requires i < |Execute(Empty(), steps).revisions|
    ensures var s := Execute(Empty(), steps); var r := s.revisions[i];
      && r.candidateId in s.candidates && MadeFrom(r, s.candidates[r.candidateId])
      && !Forbidden(s.candidates[r.candidateId]) && !Untrusted(s.candidates[r.candidateId])
  {
    hide Execute, Classify, Warrants, Forbidden, Untrusted;
    CommitsAreWarranted(steps, i);
    var s := Execute(Empty(), steps);
    ClassifyExactly(s.candidates[s.revisions[i].candidateId]);
  }

  /** Somebody with a name approved the candidate. */
  predicate Approved(rulings: seq<Ruling>, id: string) {
    exists j | 0 <= j < |rulings| ::
      rulings[j].decision.candidateId == id && rulings[j].approvedBy.Some? && Strip(rulings[j].approvedBy.value) != ""
  }

  /** In every run, whatever was remembered without a named approver is of the automatic kind. */
  lemma UnapprovedIsAutomatic(steps: seq<Step>, i: nat)
    requires i < |Execute(Empty(), steps).revisions|
    requires var s := Execute(Empty(), steps); !Approved(s.rulings, s.revisions[i].candidateId)
    ensures var s := Execute(Empty(), steps);
      s.revisions[i].candidateId in s.candidates && Automatic(s.candidates[s.revisions[i].candidateId])
  {
    hide Execute, Classify, Strip, Automatic;
    CommitsAreWarranted(steps, i);
    var s := Execute(Empty(), steps);
    var c := s.candidates[s.revisions[i].candidateId];
    var j :| 0 <= j < |s.rulings| && Warrants(c, s.rulings[j]);
    ClassifyExactly(c);
    EmptyInv();
    RunKeeps(Empty(), steps);
    CandidateKey(s, s.revisions[i].candidateId);
  }

  lemma CandidateKey(s: State, id: string)
    requires Inv(s) && id in s.candidates
    ensures s.candidates[id].id == id
  {
    hide GenerationsOk, ChainsOk, IdsOk, CommittedOk, WarrantsOk;
  }

  /** Conversely an automatic candidate that is open and up to date is committed without review. */
  lemma AutomaticIsCommitted(s: State, id: string, newMemory: string, newRevision: string)
    requires Inv(s) && id in s.candidates && s.candidates[id].status in {Pending, ReviewRequired} && Automatic(s.candidates[id])
    requires UpToDate(s, s.candidates[id], newMemory) && newRevision != "" && !HasRevision(s.revisions, newRevision)
    ensures var a := Applied(s, Decision(id, AutoCommit), None, newMemory, newRevision);
      && a.Ok? && a.value.1.status == Committed
      && |a.value.0.revisions| == |s.revisions| + 1 && a.value.0.revisions[|s.revisions|].id == newRevision
      && a.value.0.revisions[|s.revisions|].candidateId == id
  {
    hide Inv, Classify, UpToDate, HasRevision, Automatic;
    var c := s.candidates[id];
    CandidateKey(s, id);
    ClassifyExactly(c);
    CommitsExactly(s, Decision(id, AutoCommit), None, newMemory, newRevision);
    CommitAppends(Ruled(s, Decision(id, AutoCommit), None), c, newMemory, newRevision);
  }

  lemma CommitAppends(s: State, c: Candidate, newMemory: string, newRevision: string)
    requires Commit(s, c, newMemory, newRevision).Ok?
    ensures var t := Commit(s, c, newMemory, newRevision).value.0;
      |t.revisions| == |s.revisions| + 1 && t.revisions[|s.revisions|].id == newRevision && t.revisions[|s.revisions|].candidateId == c.id
  {
    hide HasRevision, Destination;
  }

  /** What the decisions that do not commit do to an open candidate, and when they stand. */
  lemma DecisionsDecide(s: State, d: Decision, approvedBy: Option<string>, m: string, r: string)
    requires Inv(s) && d.candidateId in s.candidates && s.candidates[d.candidateId].status in {Pending, ReviewRequired}
    ensures var c := s.candidates[d.candidateId]; var a := Applied(s, d, approvedBy, m, r);
      && (a.Ok? && a.value.1.status == Rejected <==> d.action == Reject && (Forbidden(c) || !Untrusted(c)))
      && (a.Ok? && a.value.1.status == Quarantined <==> d.action == Quarantine && !Forbidden(c))
      && (a.Ok? && a.value.1.status == ReviewRequired <==>
            d.action == RequireReview && approvedBy.None? && !Forbidden(c) && !Untrusted(c))
      && (a.Ok? && a.value.1.status != Committed ==>
            && a.value.0.candidates == s.candidates[d.candidateId := c.(status := a.value.1.status)]
            && a.value.0.revisions == s.revisions && a.value.0.records == s.records && a.value.0.generations == s.generations
            && a.value.1.revision.None? && a.value.1.generation == Generation(s.generations, c.namespace))
  {
    var c := s.candidates[d.candidateId];
    CandidateKey(s, d.candidateId);
    ClassifyExactly(c);
    hide Inv, Classify, Commit, Forbidden, Untrusted, Automatic, Strip;
    CommitNeverRejects(Ruled(s, d, approvedBy), c, m, r);
  }

  lemma CommitNeverRejects(s: State, c: Candidate, m: string, r: string)
    ensures Commit(s, c, m, r).Ok? ==> Commit(s, c, m, r).value.1.status == Committed
  {
    hide HasRevision, Destination, Written, Revised;
  }

  /** Rejection and quarantine are final. */
  lemma TerminalIsFinal(s: State, d: Decision, approvedBy: Option<string>, m: string, r: string)
    requires d.candidateId in s.candidates && s.candidates[d.candidateId].status in {Rejected, Quarantined}
    ensures Applied(s, d, approvedBy, m, r) == Err(CandidateIsTerminal)
  {
  }

  /** A candidate is added exactly when its base is named in full and no different one has its identifier;
      then it is stored, and nothing else changes. */
  lemma AddsExactly(s: State, c: Candidate)
    ensures Added(s, c).Ok? <==>
      && (c.baseRevision.None? || c.baseRevision.value == "" || (c.baseMemory.Some? && c.baseMemory.value != ""))
      && (c.id in s.candidates ==> s.candidates[c.id] == c)
    ensures Added(s, c).Ok? ==>
      var t := Added(s, c).value;
      t.candidates == s.candidates[c.id := c] && t == s.(candidates := t.candidates)
  {
    if c.id in s.candidates && s.candidates[c.id] == c {
      assert s.candidates[c.id := c] == s.candidates;
    }
  }
}
