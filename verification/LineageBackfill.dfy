/**
 The acquisition lineage upgrade (server/migrations/versions/0025_a1c_automation_runtime.py): one MANUAL
 attempt for every requested candidate, linked from the candidate and from its provider upload, between
 guards that refuse the database and constraints that are added afterwards. An attempt's identifier is
 its position in the table.
 */
module LineageBackfill {
  import opened Outcomes

  datatype AcquisitionState =
    | NOT_REQUESTED | REQUEST_QUEUED | ACQUIRING | INGESTING | MATERIALIZING | READY
    | RETRY_WAIT | FAILED_TERMINAL | REQUEST_CANCELLED

  datatype Origin = MANUAL | AUTOMATIC

  datatype AttemptState = QUEUED | RUNNING | COMPLETED | FAILED | CANCELLED

  datatype Actor = DEVICE | PROVIDER

  datatype Authorization = Authorization(id: nat, revision: nat)

  datatype Candidate = Candidate(id: nat, state: AcquisitionState, authorization: Option<nat>, revision: nat,
                                 job: Option<nat>, createdAt: int, updatedAt: int, current: Option<nat>)

  datatype Upload = Upload(actor: Actor, device: Option<nat>, candidate: Option<nat>, attempt: Option<nat>)

  /** A policy lineage is a policy and its revision. */
  datatype Attempt = Attempt(candidate: nat, origin: Origin, policy: Option<(nat, nat)>, authorization: nat,
                             revision: nat, job: Option<nat>, state: AttemptState, createdAt: int,
                             updatedAt: int, completedAt: Option<int>)

  datatype UpgradeError =
    | UNEXPECTED_PROVIDER_BINDING | UPLOAD_WITHOUT_AUTHORIZATION | CANDIDATE_WITHOUT_AUTHORIZATION
    | UNRESOLVED_UPLOAD | CONSTRAINT_VIOLATION

  // ---------------------------------------------------------------- the shape before the upgrade

  predicate AuthorizationExists(authorizations: seq<Authorization>, id: nat, revision: nat) {
    exists k :: 0 <= k < |authorizations| && authorizations[k].id == id && authorizations[k].revision == revision
  }

  predicate CandidateOk(c: Candidate, authorizations: seq<Authorization>, jobs: set<nat>) {
    && c.revision >= 1 && c.current == None
    && (c.authorization.Some? ==> AuthorizationExists(authorizations, c.authorization.value, c.revision))
    && (c.job.Some? ==> c.job.value in jobs)
  }

  predicate UploadOk(u: Upload, candidates: seq<Candidate>) {
    && u.attempt == None
    && (if u.actor == DEVICE then u.device.Some? && u.candidate == None else u.device == None && u.candidate.Some?)
    && (u.candidate.Some? ==> exists k :: 0 <= k < |candidates| && candidates[k].id == u.candidate.value)
  }

  predicate DistinctCandidates(candidates: seq<Candidate>) {
    forall i, k :: 0 <= i < k < |candidates| ==> candidates[i].id != candidates[k].id
  }

  predicate DistinctSources(uploads: seq<Upload>) {
    forall i, k :: 0 <= i < k < |uploads| && uploads[i].candidate.Some? ==> uploads[i].candidate != uploads[k].candidate
  }

  /** The keys and checks of the tables before the upgrade. */
  predicate OldShape(candidates: seq<Candidate>, uploads: seq<Upload>, authorizations: seq<Authorization>,
                     jobs: set<nat>)
  {
    && DistinctCandidates(candidates) && DistinctSources(uploads)
    && (forall c :: c in candidates ==> CandidateOk(c, authorizations, jobs))
    && (forall u :: u in uploads ==> UploadOk(u, candidates))
  }

  // ---------------------------------------------------------------- the backfill

  predicate Requested(c: Candidate) {
    c.state != NOT_REQUESTED
  }

  predicate Backfilled(c: Candidate) {
    Requested(c) && c.authorization.Some?
  }

  predicate Terminal(state: AttemptState) {
    state in {COMPLETED, FAILED, CANCELLED}
  }

  function StateOf(state: AcquisitionState): AttemptState {
    match state
    case REQUEST_CANCELLED => CANCELLED
    case FAILED_TERMINAL => FAILED
    case READY => COMPLETED
    case REQUEST_QUEUED => QUEUED
    case _ => RUNNING
  }

  function AttemptOf(c: Candidate): Attempt
    requires c.authorization.Some?
  {
    Attempt(c.id, MANUAL, None, c.authorization.value, c.revision, c.job, StateOf(c.state), c.createdAt, c.updatedAt,
            if c.state in {REQUEST_CANCELLED, FAILED_TERMINAL, READY} then Some(c.updatedAt) else None)
  }

  function AttemptsOf(candidates: seq<Candidate>): seq<Attempt> {
    if candidates == [] then []
    else
      var n := |candidates| - 1;
      AttemptsOf(candidates[..n]) + (if Backfilled(candidates[n]) then [AttemptOf(candidates[n])] else [])
  }

  function ManualAttempt(attempts: seq<Attempt>, candidate: nat): (found: Option<nat>)
    ensures found.Some? ==>
      found.value < |attempts| && attempts[found.value].candidate == candidate && attempts[found.value].origin == MANUAL
    ensures found.None? ==>
      forall k :: 0 <= k < |attempts| ==> attempts[k].candidate != candidate || attempts[k].origin != MANUAL
  {
    Find(attempts, (a: Attempt) => a.candidate == candidate && a.origin == MANUAL)
  }

  function LinkedCandidate(c: Candidate, attempts: seq<Attempt>): Candidate {
    match ManualAttempt(attempts, c.id)
    case None => c
    case Some(k) => c.(current := Some(k))
  }

  function LinkedUpload(u: Upload, attempts: seq<Attempt>): Upload {
    if u.actor != PROVIDER || u.candidate.None? then u
    else
      match ManualAttempt(attempts, u.candidate.value)
      case None => u
      case Some(k) => u.(attempt := Some(k))
  }

  // ---------------------------------------------------------------- what the upgrade adds

  predicate AttemptOk(a: Attempt, candidates: seq<Candidate>, authorizations: seq<Authorization>, jobs: set<nat>) {
    && (exists k :: 0 <= k < |candidates| && candidates[k].id == a.candidate)
    && AuthorizationExists(authorizations, a.authorization, a.revision)
    && (a.job.Some? ==> a.job.value in jobs)
    && (if a.origin == MANUAL then a.policy == None else a.policy.Some? && a.policy.value.1 >= 1)
  }

  predicate CandidateLinksOk(candidates: seq<Candidate>, attempts: seq<Attempt>) {
    forall c :: c in candidates && c.current.Some? ==> c.current.value < |attempts|
  }

  predicate UploadLinksOk(uploads: seq<Upload>, attempts: seq<Attempt>) {
    forall u :: u in uploads && u.attempt.Some? ==> u.attempt.value < |attempts|
  }

  predicate UploadAttemptsUnique(uploads: seq<Upload>) {
    forall i, k :: 0 <= i < k < |uploads| && uploads[i].attempt.Some? ==> uploads[i].attempt != uploads[k].attempt
  }

  predicate ActorOk(u: Upload) {
    if u.actor == DEVICE then u.device.Some? && u.candidate == None && u.attempt == None
    else u.device == None && u.candidate.Some? && u.attempt.Some?
  }

  /** The partial unique index on active attempts. */
  predicate OneActive(attempts: seq<Attempt>) {
    forall i, k :: 0 <= i < k < |attempts| && !Terminal(attempts[i].state) && !Terminal(attempts[k].state) ==>
      attempts[i].candidate != attempts[k].candidate
  }

  predicate NewShape(candidates: seq<Candidate>, uploads: seq<Upload>, attempts: seq<Attempt>,
                     authorizations: seq<Authorization>, jobs: set<nat>)
  {
    && (forall a :: a in attempts ==> AttemptOk(a, candidates, authorizations, jobs))
    && CandidateLinksOk(candidates, attempts) && UploadLinksOk(uploads, attempts)
    && UploadAttemptsUnique(uploads)
    && (forall u :: u in uploads ==> ActorOk(u))
    && OneActive(attempts)
  }

  /** Exactly when the guards let a database pass. */
  predicate Upgradable(candidates: seq<Candidate>, uploads: seq<Upload>) {
    && (forall c :: c in candidates && Requested(c) ==> c.authorization.Some?)
    && (forall u, c :: u in uploads && c in candidates && u.actor == PROVIDER && u.candidate == Some(c.id) ==>
          Requested(c))
  }

  // ---------------------------------------------------------------- the attempts

  /** Every backfilled candidate has its attempt, at a position of its own. */
  lemma {:induction false} AttemptExists(candidates: seq<Candidate>, c: Candidate) returns (k: nat)
    requires c in candidates && Backfilled(c)
    ensures k < |AttemptsOf(candidates)| && AttemptsOf(candidates)[k] == AttemptOf(c)
  {
    var n := |candidates| - 1;
    if candidates[n] == c {
      k := |AttemptsOf(candidates[..n])|;
    } else {
      k := AttemptExists(candidates[..n], c);
    }
  }

  lemma {:induction false} AttemptComesFrom(candidates: seq<Candidate>, k: nat) returns (i: nat)
    requires k < |AttemptsOf(candidates)|
    ensures i < |candidates| && Backfilled(candidates[i]) && AttemptsOf(candidates)[k] == AttemptOf(candidates[i])
  {
    var n := |candidates| - 1;
    if k == |AttemptsOf(candidates[..n])| {
      i := n;
    } else {
      i := AttemptComesFrom(candidates[..n], k);
    }
  }

  /** One attempt a candidate. */
  lemma {:induction false} AttemptsDistinct(candidates: seq<Candidate>, j: nat, k: nat)
    requires DistinctCandidates(candidates) && j < k < |AttemptsOf(candidates)|
    ensures AttemptsOf(candidates)[j].candidate != AttemptsOf(candidates)[k].candidate
  {
    var n := |candidates| - 1;
    if k < |AttemptsOf(candidates[..n])| {
      AttemptsDistinct(candidates[..n], j, k);
    } else {
      var i := AttemptComesFrom(candidates[..n], j);
      assert candidates[..n][i] == candidates[i];
    }
  }

  /** A requested candidate gets exactly one attempt, MANUAL, in the state that its own state maps to, and
      that is its current one; `completedAt` is set exactly when that state is terminal. */
  lemma CurrentAttempt(candidates: seq<Candidate>, c: Candidate)
    requires DistinctCandidates(candidates) && c in candidates
    ensures var attempts := AttemptsOf(candidates);
      var found := ManualAttempt(attempts, c.id);
      && (found.Some? <==> Backfilled(c))
      && (found.Some? ==>
            && attempts[found.value] == AttemptOf(c) && attempts[found.value].origin == MANUAL
            && (attempts[found.value].completedAt.Some? <==> Terminal(attempts[found.value].state))
            && forall k :: 0 <= k < |attempts| && attempts[k].candidate == c.id ==> k == found.value)
  {
    var attempts := AttemptsOf(candidates);
    var found := ManualAttempt(attempts, c.id);
    if Backfilled(c) {
      var k := AttemptExists(candidates, c);
    }
    if found.Some? {
      var i := AttemptComesFrom(candidates, found.value);
      var j :| 0 <= j < |candidates| && candidates[j] == c;
      assert i == j;
      forall k | 0 <= k < |attempts| && attempts[k].candidate == c.id ensures k == found.value {
        if k < found.value {
          AttemptsDistinct(candidates, k, found.value);
        } else if k > found.value {
          AttemptsDistinct(candidates, found.value, k);
        }
      }
    }
  }

  // ---------------------------------------------------------------- the links

  predicate CandidatesLinked(before: seq<Candidate>, after: seq<Candidate>, attempts: seq<Attempt>) {
    |after| == |before| && forall i :: 0 <= i < |after| ==> after[i] == LinkedCandidate(before[i], attempts)
  }

  predicate UploadsLinked(before: seq<Upload>, after: seq<Upload>, attempts: seq<Attempt>) {
    |after| == |before| && forall i :: 0 <= i < |after| ==> after[i] == LinkedUpload(before[i], attempts)
  }

  predicate RequestedAuthorized(candidates: seq<Candidate>) {
    forall c :: c in candidates && Requested(c) ==> c.authorization.Some?
  }

  /** The first guard adds nothing to the other two: an upload that it refuses would stay unresolved. */
  lemma Refused(candidates: seq<Candidate>, uploads: seq<Upload>, authorizations: seq<Authorization>,
                jobs: set<nat>, u: Upload)
    requires OldShape(candidates, uploads, authorizations, jobs) && u in uploads && u.actor == PROVIDER
    requires u.candidate.None?
      || forall c :: c in candidates && c.id == u.candidate.value ==> c.authorization.None?
    ensures !Upgradable(candidates, uploads)
  {
    assert UploadOk(u, candidates);
    var k :| 0 <= k < |candidates| && candidates[k].id == u.candidate.value;
    assert candidates[k] in candidates;
  }

  /** A provider upload is linked to its own candidate's attempt, if that candidate was requested. */
  lemma UploadLink(candidates: seq<Candidate>, u: Upload)
    requires DistinctCandidates(candidates) && RequestedAuthorized(candidates) && UploadOk(u, candidates)
    requires u.actor == PROVIDER
    ensures var attempts := AttemptsOf(candidates);
      var linked := LinkedUpload(u, attempts);
      && (linked.attempt.Some? <==> exists c :: c in candidates && u.candidate == Some(c.id) && Requested(c))
      && (linked.attempt.Some? ==>
            && linked.attempt.value < |attempts|
            && Some(attempts[linked.attempt.value].candidate) == u.candidate)
  {
    var k :| 0 <= k < |candidates| && candidates[k].id == u.candidate.value;
    CurrentAttempt(candidates, candidates[k]);
    forall c | c in candidates && c.id == candidates[k].id ensures c == candidates[k] {
      var i :| 0 <= i < |candidates| && candidates[i] == c;
    }
  }

  lemma UploadsResolve(candidates: seq<Candidate>, before: seq<Upload>, after: seq<Upload>,
                       authorizations: seq<Authorization>, jobs: set<nat>)
    requires OldShape(candidates, before, authorizations, jobs) && RequestedAuthorized(candidates)
    requires UploadsLinked(before, after, AttemptsOf(candidates))
    ensures Upgradable(candidates, before) <==> forall u :: u in after && u.actor == PROVIDER ==> u.attempt.Some?
  {
    hide LinkedUpload, UploadOk, CandidateOk, DistinctCandidates, DistinctSources;
    forall i | 0 <= i < |before| && before[i].actor == PROVIDER
      ensures after[i] in after && before[i] in before && before[i].candidate.Some?
      ensures after[i].attempt.Some? <==>
        exists c :: c in candidates && before[i].candidate == Some(c.id) && Requested(c)
      ensures after[i].actor == PROVIDER
      ensures exists c :: c in candidates && before[i].candidate == Some(c.id)
    {
      UploadLink(candidates, before[i]);
      Shape(before[i], candidates, AttemptsOf(candidates));
    }
    forall i | 0 <= i < |before| && before[i].actor != PROVIDER ensures after[i].actor != PROVIDER {
      Shape(before[i], candidates, AttemptsOf(candidates));
    }
    if forall u :: u in after && u.actor == PROVIDER ==> u.attempt.Some? {
      forall u, c | u in before && c in candidates && u.actor == PROVIDER && u.candidate == Some(c.id)
        ensures Requested(c)
      {
        var i :| 0 <= i < |before| && before[i] == u;
        assert after[i].attempt.Some?;
        var d :| d in candidates && before[i].candidate == Some(d.id) && Requested(d);
        SameId(candidates, c, d);
      }
    }
    if Upgradable(candidates, before) {
      forall u | u in after && u.actor == PROVIDER ensures u.attempt.Some? {
        var i :| 0 <= i < |after| && after[i] == u;
        var c :| c in candidates && before[i].candidate == Some(c.id);
        assert Requested(c);
      }
    }
  }

  lemma SameId(candidates: seq<Candidate>, c: Candidate, d: Candidate)
    requires DistinctCandidates(candidates) && c in candidates && d in candidates && c.id == d.id
    ensures c == d
  {
    var i :| 0 <= i < |candidates| && candidates[i] == c;
    var k :| 0 <= k < |candidates| && candidates[k] == d;
  }

  lemma Shape(u: Upload, candidates: seq<Candidate>, attempts: seq<Attempt>)
    requires UploadOk(u, candidates)
    ensures LinkedUpload(u, attempts).actor == u.actor && LinkedUpload(u, attempts).device == u.device
    ensures LinkedUpload(u, attempts).candidate == u.candidate
    ensures u.actor == PROVIDER ==> exists c :: c in candidates && u.candidate == Some(c.id)
    ensures u.actor == DEVICE ==> LinkedUpload(u, attempts) == u && u.device.Some?
    ensures u.actor == DEVICE ==> u.candidate == None && u.attempt == None
    ensures u.actor == PROVIDER ==> u.device == None && u.candidate.Some?
  {
    if u.actor == PROVIDER {
      var k :| 0 <= k < |candidates| && candidates[k].id == u.candidate.value;
      assert candidates[k] in candidates;
    }
  }

  lemma AttemptsOk(before: seq<Candidate>, after: seq<Candidate>, uploads: seq<Upload>,
                   authorizations: seq<Authorization>, jobs: set<nat>)
    requires OldShape(before, uploads, authorizations, jobs)
    requires CandidatesLinked(before, after, AttemptsOf(before))
    ensures forall a :: a in AttemptsOf(before) ==> AttemptOk(a, after, authorizations, jobs)
    ensures OneActive(AttemptsOf(before))
  {
    var attempts := AttemptsOf(before);
    forall a | a in attempts ensures AttemptOk(a, after, authorizations, jobs) {
      var k :| 0 <= k < |attempts| && attempts[k] == a;
      var i := AttemptComesFrom(before, k);
      assert before[i] in before && CandidateOk(before[i], authorizations, jobs);
      assert after[i].id == a.candidate;
    }
    forall i, k | 0 <= i < k < |attempts| ensures attempts[i].candidate != attempts[k].candidate {
      AttemptsDistinct(before, i, k);
    }
  }

  /** Provider uploads go to attempts injectively, because no two of them had the same candidate. */
  lemma LinksInjective(candidates: seq<Candidate>, before: seq<Upload>, after: seq<Upload>,
                       authorizations: seq<Authorization>, jobs: set<nat>)
    requires OldShape(candidates, before, authorizations, jobs) && RequestedAuthorized(candidates)
    requires UploadsLinked(before, after, AttemptsOf(candidates))
    ensures UploadAttemptsUnique(after) && UploadLinksOk(after, AttemptsOf(candidates))
  {
    hide LinkedUpload, CandidateOk, DistinctCandidates;
    forall i | 0 <= i < |after|
      ensures after[i].attempt.Some? ==>
        && before[i].candidate.Some? && after[i].attempt.value < |AttemptsOf(candidates)|
        && Some(AttemptsOf(candidates)[after[i].attempt.value].candidate) == before[i].candidate
    {
      assert before[i] in before;
      Shape(before[i], candidates, AttemptsOf(candidates));
      if before[i].actor == PROVIDER {
        UploadLink(candidates, before[i]);
      }
    }
  }

  /** The constraints that are added after the guards hold on every database that has passed them. */
  lemma ConstraintsHold(before: seq<Candidate>, sessions: seq<Upload>, candidates: seq<Candidate>,
                        uploads: seq<Upload>, authorizations: seq<Authorization>, jobs: set<nat>)
    requires OldShape(before, sessions, authorizations, jobs) && Upgradable(before, sessions)
    requires CandidatesLinked(before, candidates, AttemptsOf(before))
    requires UploadsLinked(sessions, uploads, AttemptsOf(before))
    ensures NewShape(candidates, uploads, AttemptsOf(before), authorizations, jobs)
  {
    hide AttemptOk, OneActive, UploadAttemptsUnique, UploadLinksOk, UploadOk, LinkedUpload, AttemptsOf;
    AttemptsOk(before, candidates, sessions, authorizations, jobs);
    LinksInjective(before, sessions, uploads, authorizations, jobs);
    UploadsResolve(before, sessions, uploads, authorizations, jobs);
    forall u | u in uploads ensures ActorOk(u) {
      var i :| 0 <= i < |uploads| && uploads[i] == u;
      assert sessions[i] in sessions;
      Shape(sessions[i], before, AttemptsOf(before));
    }
    forall c | c in candidates && c.current.Some? ensures c.current.value < |AttemptsOf(before)| {
      var i :| 0 <= i < |candidates| && candidates[i] == c;
      assert before[i] in before && CandidateOk(before[i], authorizations, jobs);
    }
  }

  // ---------------------------------------------------------------- the upgrade

  class Lineage {
    var candidates: seq<Candidate>
    var uploads: seq<Upload>
    var attempts: seq<Attempt>
    const authorizations: seq<Authorization>
    const jobs: set<nat>
    const bindingExpected: bool

    constructor (candidates: seq<Candidate>, uploads: seq<Upload>, authorizations: seq<Authorization>,
                 jobs: set<nat>, bindingExpected: bool)
      ensures this.candidates == candidates && this.uploads == uploads && attempts == []
      ensures this.authorizations == authorizations && this.jobs == jobs && this.bindingExpected == bindingExpected
    {
      this.candidates, this.uploads, attempts := candidates, uploads, [];
      this.authorizations, this.jobs, this.bindingExpected := authorizations, jobs, bindingExpected;
    }

    /** INSERT ... SELECT over the candidates. */
    method InsertAttempts()
      requires attempts == []
      modifies this`attempts
      ensures attempts == AttemptsOf(candidates)
    {
      for i := 0 to |candidates|
        invariant attempts == AttemptsOf(candidates[..i])
      {
        assert candidates[..i + 1][..i] == candidates[..i];
        var c := candidates[i];
        if c.state != NOT_REQUESTED && c.authorization.Some? {
          attempts := attempts + [AttemptOf(c)];
        }
      }
      assert candidates[..|candidates|] == candidates;
    }

    /** UPDATE ... FROM the attempts. */
    method LinkCandidates()
      modifies this`candidates
      ensures CandidatesLinked(old(candidates), candidates, attempts)
    {
      var linked: seq<Candidate> := [];
      for i := 0 to |candidates|
        invariant |linked| == i
        invariant forall k :: 0 <= k < i ==> linked[k] == LinkedCandidate(candidates[k], attempts)
      {
        linked := linked + [LinkedCandidate(candidates[i], attempts)];
      }
      candidates := linked;
    }

    method LinkUploads()
      modifies this`uploads
      ensures UploadsLinked(old(uploads), uploads, attempts)
    {
      var linked: seq<Upload> := [];
      for i := 0 to |uploads|
        invariant |linked| == i
        invariant forall k :: 0 <= k < i ==> linked[k] == LinkedUpload(uploads[k], attempts)
      {
        linked := linked + [LinkedUpload(uploads[i], attempts)];
      }
      uploads := linked;
    }

    predicate UploadUnauthorized(u: Upload)
      reads this`candidates
    {
      u.actor == PROVIDER &&
      (u.candidate.None? || forall c :: c in candidates && c.id == u.candidate.value ==> c.authorization.None?)
    }

    /** The whole upgrade. The guards are sufficient: on every database of the old shape the constraints
        added after them hold, so it fails at a guard or not at all, and it fails there exactly when the
        database is not `Upgradable`. */
    method Upgrade() returns (error: Option<UpgradeError>)
      requires OldShape(candidates, uploads, authorizations, jobs) && attempts == []
      modifies this
      ensures error != Some(CONSTRAINT_VIOLATION)
      ensures error == None <==> bindingExpected && Upgradable(old(candidates), old(uploads))
      ensures error == None ==> NewShape(candidates, uploads, attempts, authorizations, jobs)
      ensures error == None ==> attempts == AttemptsOf(old(candidates))
      ensures error == None ==> CandidatesLinked(old(candidates), candidates, attempts)
      ensures error == None ==> UploadsLinked(old(uploads), uploads, attempts)
    {
      if !bindingExpected {
        return Some(UNEXPECTED_PROVIDER_BINDING);
      }
      if exists u :: u in uploads && UploadUnauthorized(u) {
        var u :| u in uploads && UploadUnauthorized(u);
        Refused(candidates, uploads, authorizations, jobs, u);
        return Some(UPLOAD_WITHOUT_AUTHORIZATION);
      }
      if exists c :: c in candidates && Requested(c) && c.authorization.None? {
        return Some(CANDIDATE_WITHOUT_AUTHORIZATION);
      }
      ghost var before, sessions := candidates, uploads;
      InsertAttempts();
      LinkCandidates();
      LinkUploads();
      UploadsResolve(before, sessions, uploads, authorizations, jobs);
      if exists u :: u in uploads && u.actor == PROVIDER && u.attempt.None? {
        return Some(UNRESOLVED_UPLOAD);
      }
      ConstraintsHold(before, sessions, candidates, uploads, authorizations, jobs);
      if !NewShape(candidates, uploads, attempts, authorizations, jobs) {
        return Some(CONSTRAINT_VIOLATION);
      }
      return None;
    }
  }
}
