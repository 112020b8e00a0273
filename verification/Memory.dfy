/** The repository object: each public call is one transaction over the stored rows. */
module Memory {
  import opened Text
  import opened MemorySpec
  import MemoryProofs

  class MemoryRepository {
    var candidates: map<string, Candidate>
    var records: map<string, Record>
    var revisions: seq<Revision>
    var generations: map<string, nat>
    var rulings: seq<Ruling>

    ghost function Rows(): State
      reads this
    {
      State(candidates, records, revisions, generations, rulings)
    }

    ghost predicate Valid()
      reads this
    {
      MemoryProofs.Inv(Rows())
    }

    constructor ()
      ensures Valid() && Rows() == Empty()
    {
      candidates, records, revisions, generations, rulings := map[], map[], [], map[], [];
      new;
      MemoryProofs.EmptyInv();
    }

    /** `add_candidate`. */
    method AddCandidate(c: Candidate) returns (r: Result<Candidate>)
      requires Valid()
      modifies this
      ensures Valid()
      ensures r.Ok? <==> Added(old(Rows()), c).Ok?
      ensures r.Ok? ==> r.value == c && Rows() == Added(old(Rows()), c).value
      ensures r.Err? ==> Rows() == old(Rows())
    {
      hide MemoryProofs.Inv;
      ghost var before := Rows();
      if !ValidCandidate(c) {
        return Err(InvalidCandidate);
      }
      if c.id in candidates {
        if candidates[c.id] != c {
          return Err(IdConflict);
        }
        return Ok(candidates[c.id]);
      }
      candidates := candidates[c.id := c];
      MemoryProofs.AddKeeps(before, c);
      return Ok(c);
    }

    /** `apply_decision`; the two identifiers are what the generators would return. On an error everything
        the call wrote is rolled back. */
    method ApplyDecision(d: Decision, approvedBy: Option<string>, newMemory: string, newRevision: string)
      returns (r: Result<Promotion>)
      requires Valid()
      modifies this
      ensures Valid()
      ensures r.Ok? <==> Applied(old(Rows()), d, approvedBy, newMemory, newRevision).Ok?
      ensures r.Ok? ==> Applied(old(Rows()), d, approvedBy, newMemory, newRevision) == Ok((Rows(), r.value))
      ensures r.Err? ==>
        Applied(old(Rows()), d, approvedBy, newMemory, newRevision) == Err(r.error) && Rows() == old(Rows())
    {
      hide MemoryProofs.Inv, Classify, Objection, MemorySpec.Commit;
      ghost var before := Rows();
      if d.candidateId !in candidates {
        return Err(UnknownCandidate);
      }
      var c := candidates[d.candidateId];
      if c.status == Committed {
        var found := RevisionOf(d.candidateId);
        if found.None? {
          return Err(MissingRevision);
        }
        return Ok(Promotion(Committed, found.value.generation, found));
      }
      if c.status == Rejected || c.status == Quarantined {
        return Err(CandidateIsTerminal);
      }
      var objection := Objection(c, d, approvedBy);
      if objection.Some? {
        return Err(objection.value);
      }
      rulings := rulings + [Ruling(d, approvedBy)];
      var status := NonCommitStatus(d, approvedBy);
      if status.Some? {
        candidates := candidates[c.id := c.(status := status.value)];
        r := Ok(Promotion(status.value, Generation(generations, c.namespace), None));
        MemoryProofs.ApplyKeeps(before, d, approvedBy, newMemory, newRevision);
        return;
      }
      r := Commit(c, newMemory, newRevision);
      if r.Err? {
        rulings := rulings[..|rulings| - 1];
        return;
      }
      MemoryProofs.ApplyKeeps(before, d, approvedBy, newMemory, newRevision);
    }

    /** The revision of a committed candidate, looked up row by row. */
    method RevisionOf(candidateId: string) returns (found: Option<Revision>)
      ensures found == FindByCandidate(revisions, candidateId)
    {
      var i := 0;
      while i < |revisions|
        invariant i <= |revisions|
        invariant FindByCandidate(revisions, candidateId) == FindByCandidate(revisions[i..], candidateId)
      {
        if revisions[i].candidateId == candidateId {
          return Some(revisions[i]);
        }
        assert revisions[i..][1..] == revisions[i + 1..];
        i := i + 1;
      }
      return None;
    }

    /** `_commit_candidate`: nothing is written unless every check passes. */
    method Commit(c: Candidate, newMemory: string, newRevision: string) returns (r: Result<Promotion>)
      modifies this
      ensures r.Ok? ==> MemorySpec.Commit(old(Rows()), c, newMemory, newRevision) == Ok((Rows(), r.value))
      ensures r.Err? ==> MemorySpec.Commit(old(Rows()), c, newMemory, newRevision) == Err(r.error) && Rows() == old(Rows())
    {
      if c.kind == ProceduralSkill || c.kind == Policy || c.kind == Security {
        return Err(NotPersonalMemory);
      }
      var m := newMemory;
      if Given(c.baseMemory) {
        m := c.baseMemory.value;
        if m !in records {
          return Err(BaseMissing);
        }
        if Some(records[m].current) != c.baseRevision {
          return Err(BaseStale);
        }
        if records[m].kind != c.kind || records[m].scope != c.scope {
          return Err(KindOrScopeChanged);
        }
      } else if m in records {
        return Err(IdConflict);
      }
      if m == "" || newRevision == "" || HasRevision(revisions, newRevision) {
        return Err(InvalidId);
      }
      var generation := Generation(generations, c.namespace) + 1;
      var revision := Revision(newRevision, m, c.namespace, generation, c.baseRevision, c.id, c.kind, c.scope,
                               c.subject, c.content);
      generations := generations[c.namespace := generation];
      if m in records {
        records := records[m := records[m].(subject := c.subject, current := newRevision)];
      } else {
        records := records[m := Record(c.namespace, c.kind, c.scope, c.subject, newRevision)];
      }
      revisions := revisions + [revision];
      candidates := candidates[c.id := c.(status := Committed)];
      return Ok(Promotion(Committed, generation, Some(revision)));
    }
  }
}
