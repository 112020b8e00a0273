/** Personal memory: which proposals may be committed, and the revision store as functions of its rows.
    Every function is one transaction: an error leaves the rows as they were. */
module MemorySpec {
  import opened Text

  datatype Kind = Canon | Persona | UserProfile | ViewerProfile | Relationship | SemanticFact | Episode
                | ActiveTask | ProceduralSkill | Policy | Security

  datatype Trust = OwnerAuthored | OwnerStated | TrustedOperator | AuthenticatedUser | ToolObservation
                 | ModelInference | PublicViewer | UnverifiedImport

  datatype Sensitivity = Public | Internal | Private | Restricted

  datatype Status = Pending | ReviewRequired | Quarantined | Rejected | Committed

  datatype Action = AutoCommit | RequireReview | Quarantine | Reject

  datatype Scope = Scope(kind: string, subjectId: string)

  datatype Candidate = Candidate(
    id: string, namespace: string, kind: Kind, scope: Scope, subject: string, content: string,
    trust: Trust, consented: bool, confidence: real, sensitivity: Sensitivity,
    baseMemory: Option<string>, baseRevision: Option<string>, contradictions: seq<string>, status: Status)

  datatype Revision = Revision(
    id: string, memoryId: string, namespace: string, generation: nat, parent: Option<string>,
    candidateId: string, kind: Kind, scope: Scope, subject: string, content: string)

  datatype Record = Record(namespace: string, kind: Kind, scope: Scope, subject: string, current: string)

  datatype Decision = Decision(candidateId: string, action: Action)

  /** A row of the decision log. */
  datatype Ruling = Ruling(decision: Decision, approvedBy: Option<string>)

  datatype State = State(
    candidates: map<string, Candidate>,
    records: map<string, Record>,
    revisions: seq<Revision>,
    generations: map<string, nat>,
    rulings: seq<Ruling>)

  function Empty(): State {
    State(map[], map[], [], map[], [])
  }

  datatype Error =
    | InvalidCandidate | IdConflict | UnknownCandidate | CandidateIsTerminal | MissingRevision
    | MustRemain | ReviewNeeded | BlankApprover | NotPersonalMemory
    | BaseMissing | BaseStale | KindOrScopeChanged | InvalidId

  datatype Result<T> = Ok(value: T) | Err(error: Error)

  datatype Promotion = Promotion(status: Status, generation: nat, revision: Option<Revision>)

  /** An optional string as a condition: absent and empty are both false. */
  predicate Given(s: Option<string>) {
    s.Some? && s.value != ""
  }

  // ---- The policy ----

  predicate NeedsReview(c: Candidate) {
    || c.kind in {Canon, Persona} || c.sensitivity in {Private, Restricted} || c.contradictions != []
    || c.trust == ModelInference || !c.consented || c.confidence < 0.9
  }

  function Classify(c: Candidate): Action {
    if c.kind in {Policy, Security} then Reject
    else if c.kind == ProceduralSkill then Reject
    else if c.trust in {PublicViewer, UnverifiedImport} then Quarantine
    else if NeedsReview(c) || c.kind !in {UserProfile, Relationship, SemanticFact, Episode, ActiveTask} then RequireReview
    else if c.trust !in {OwnerAuthored, OwnerStated, TrustedOperator} then RequireReview
    else AutoCommit
  }

  /** `_validate_decision`; `None` if the decision stands. */
  function Objection(c: Candidate, d: Decision, approvedBy: Option<string>): Option<Error> {
    var baseline := Classify(c);
    if baseline in {Reject, Quarantine} && d.action != baseline then Some(MustRemain)
    else if baseline == RequireReview && d.action == AutoCommit then Some(ReviewNeeded)
    else if d.action == RequireReview && approvedBy.Some? && Strip(approvedBy.value) == "" then Some(BlankApprover)
    else None
  }

  /** `_non_commit_status`; `None` if the candidate is to be committed. */
  function NonCommitStatus(d: Decision, approvedBy: Option<string>): Option<Status> {
    match d.action
    case Reject => Some(Rejected)
    case Quarantine => Some(Quarantined)
    case RequireReview => if approvedBy.None? then Some(ReviewRequired) else None
    case AutoCommit => None
  }

  // ---- The store ----

  predicate ValidCandidate(c: Candidate) {
    Given(c.baseRevision) ==> Given(c.baseMemory)
  }

  function Added(s: State, c: Candidate): Result<State> {
    if !ValidCandidate(c) then Err(InvalidCandidate)
    else if c.id !in s.candidates then Ok(s.(candidates := s.candidates[c.id := c]))
    else if s.candidates[c.id] == c then Ok(s)
    else Err(IdConflict)
  }

  function Generation(generations: map<string, nat>, namespace: string): nat {
    if namespace in generations then generations[namespace] else 0
  }

  predicate HasRevision(revisions: seq<Revision>, id: string) {
    exists i | 0 <= i < |revisions| :: revisions[i].id == id
  }

  /** Where a candidate is to be committed, if it may be. */
  function Destination(s: State, c: Candidate, newMemory: string): Result<string> {
    if c.kind in {ProceduralSkill, Policy, Security} then Err(NotPersonalMemory)
    else if Given(c.baseMemory) then
      var m := c.baseMemory.value;
      if m !in s.records then Err(BaseMissing)
      else if Some(s.records[m].current) != c.baseRevision then Err(BaseStale)
      else if s.records[m].kind != c.kind || s.records[m].scope != c.scope then Err(KindOrScopeChanged)
      else Ok(m)
    else if newMemory in s.records then Err(IdConflict)
    else Ok(newMemory)
  }

  function Revised(s: State, c: Candidate, memoryId: string, revisionId: string): Revision {
    Revision(revisionId, memoryId, c.namespace, Generation(s.generations, c.namespace) + 1, c.baseRevision,
             c.id, c.kind, c.scope, c.subject, c.content)
  }

  /** Write the revision `r` made from candidate `c`. */
  function Written(s: State, c: Candidate, r: Revision): State {
    s.(generations := s.generations[c.namespace := r.generation],
       records := s.records[r.memoryId :=
         if r.memoryId in s.records then s.records[r.memoryId].(subject := c.subject, current := r.id)
         else Record(c.namespace, c.kind, c.scope, c.subject, r.id)],
       revisions := s.revisions + [r],
       candidates := s.candidates[c.id := c.(status := Committed)])
  }

  /** `_commit_candidate`. Blank and repeated identifiers are refused by the rows themselves. */
  function Commit(s: State, c: Candidate, newMemory: string, newRevision: string): Result<(State, Promotion)> {
    match Destination(s, c, newMemory)
    case Err(e) => Err(e)
    case Ok(m) =>
      if m == "" || newRevision == "" || HasRevision(s.revisions, newRevision) then Err(InvalidId)
      else
        var r := Revised(s, c, m, newRevision);
        Ok((Written(s, c, r), Promotion(Committed, r.generation, Some(r))))
  }

  function FindByCandidate(revisions: seq<Revision>, candidateId: string): Option<Revision> {
    if revisions == [] then None
    else if revisions[0].candidateId == candidateId then Some(revisions[0])
    else FindByCandidate(revisions[1..], candidateId)
  }

  function Ruled(s: State, d: Decision, approvedBy: Option<string>): State {
    s.(rulings := s.rulings + [Ruling(d, approvedBy)])
  }

  /** `apply_decision`, with the identifiers it would draw. */
  function Applied(s: State, d: Decision, approvedBy: Option<string>, newMemory: string, newRevision: string)
    : Result<(State, Promotion)>
  {
    if d.candidateId !in s.candidates then Err(UnknownCandidate)
    else
      var c := s.candidates[d.candidateId];
      if c.status == Committed then
        match FindByCandidate(s.revisions, d.candidateId)
        case None => Err(MissingRevision)
        case Some(r) => Ok((s, Promotion(Committed, r.generation, Some(r))))
      else if c.status in {Rejected, Quarantined} then Err(CandidateIsTerminal)
      else if Objection(c, d, approvedBy).Some? then Err(Objection(c, d, approvedBy).value)
      else
        var s1 := Ruled(s, d, approvedBy);
        match NonCommitStatus(d, approvedBy)
        case Some(status) =>
          Ok((s1.(candidates := s.candidates[c.id := c.(status := status)]),
              Promotion(status, Generation(s.generations, c.namespace), None)))
        case None => Commit(s1, c, newMemory, newRevision)
  }

  // ---- Runs ----

  datatype Step =
    | Add(candidate: Candidate)
    | Apply(decision: Decision, approvedBy: Option<string>, newMemory: string, newRevision: string)

  function Next(s: State, step: Step): State {
    match step
    case Add(c) => (match Added(s, c) case Ok(t) => t case Err(_) => s)
    case Apply(d, approver, m, r) => (match Applied(s, d, approver, m, r) case Ok(t) => t.0 case Err(_) => s)
  }

  function Execute(s: State, steps: seq<Step>): State
    decreases |steps|
  {
    if steps == [] then s else Execute(Next(s, steps[0]), steps[1..])
  }
}
