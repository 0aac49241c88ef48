/**
 The model registry and its triggers (server/migrations/versions/0014_gpu_enrichment.py, over the table of
 server/migrations/reference_v1.sql), and the application's activation of a model
 (server/src/autplay/adapters/postgresql/enrichment.py). Tables are maps and sequences; a statement is a
 guarded step that either fails or gives the next database.
 */
module ModelActivation {
  import opened Outcomes

  type ModelId = nat
  type Sha = nat
  type Time = int

  datatype Status = BENCHMARK | ACTIVE | RETIRED | BLOCKED

  /** `provenance` stands for the columns that only identify the artifact, `version` for the one column
      besides the status that an update changes. */
  datatype Model = Model(task: string, provenance: nat, review: Option<string>, status: Status, version: nat)

  datatype Decision = EXPERIMENTAL | APPROVED | REJECTED | UNAVAILABLE

  datatype Report = Report(model: ModelId, decision: Decision, document: nat)

  datatype Action = ACTIVATE | ROLLBACK | DEACTIVATE

  datatype Activation = Activation(task: string, sequence: nat, target: Option<ModelId>, previous: Option<ModelId>,
                                   action: Action, report: Sha, rollbackUntil: Option<Time>, createdAt: Time)

  datatype Db = Db(models: map<ModelId, Model>, reports: map<Sha, Report>, log: seq<Activation>)

  datatype SqlError =
    | IMMUTABLE_ROW | NOT_BENCHMARKED | NO_ACTIVATION_HISTORY | NO_DEACTIVATION_HISTORY | IMMUTABLE_PROVENANCE
    | IMMUTABLE_EVIDENCE | CHECK_VIOLATION | UNIQUE_VIOLATION | FOREIGN_KEY_VIOLATION

  datatype Statement =
    | InsertModel(id: ModelId, model: Model)
    | UpdateModel(id: ModelId, newId: ModelId, model: Model)
    | DeleteModel(id: ModelId)
    | InsertReport(sha: Sha, report: Report)
    | ChangeReport(sha: Sha)
    | InsertActivation(row: Activation)
    | ChangeActivation(index: nat)

  // ---------------------------------------------------------------- constraints and triggers

  predicate ReviewOk(m: Model) {
    && (m.review.Some? ==> 1 <= |m.review.value| <= 500)
    && (m.status == BLOCKED || m.review.Some?)
  }

  /** The partial unique index: one ACTIVE model for each task. */
  predicate SingleActive(models: map<ModelId, Model>) {
    forall a, b | a in models && b in models && models[a].status == ACTIVE && models[b].status == ACTIVE ::
      models[a].task == models[b].task ==> a == b
  }

  /** A row of the log that takes `id` up for `task`, with an approved report of that same model. */
  predicate Approves(db: Db, row: Activation, id: ModelId, task: string) {
    && row.target == Some(id) && row.task == task
    && row.report in db.reports && db.reports[row.report].model == id && db.reports[row.report].decision == APPROVED
  }

  predicate ActivationLogged(db: Db, id: ModelId, task: string, now: Time) {
    exists k :: 0 <= k < |db.log| && Approves(db, db.log[k], id, task) && db.log[k].createdAt == now
  }

  predicate DeactivationLogged(db: Db, id: ModelId, task: string, now: Time) {
    exists k :: 0 <= k < |db.log|
      && db.log[k].previous == Some(id) && db.log[k].task == task && db.log[k].createdAt == now
  }

  predicate SameProvenance(a: Model, b: Model) {
    a.task == b.task && a.provenance == b.provenance && a.review == b.review
  }

  function WriteModel(db: Db, id: ModelId, m: Model): Result<Db, SqlError> {
    if !ReviewOk(m) then Err(CHECK_VIOLATION)
    else if !SingleActive(db.models[id := m]) then Err(UNIQUE_VIOLATION)
    else Ok(db.(models := db.models[id := m]))
  }

  /** The BEFORE UPDATE trigger, and the row version that another trigger bumps. */
  function UpdateRow(db: Db, now: Time, id: ModelId, newId: ModelId, m: Model): Result<Db, SqlError>
    requires id in db.models
  {
    var before := db.models[id];
    if m.status == ACTIVE && before.status != ACTIVE && !ActivationLogged(db, newId, m.task, now) then
      Err(NO_ACTIVATION_HISTORY)
    else if before.status == ACTIVE && m.status != ACTIVE && !DeactivationLogged(db, id, before.task, now) then
      Err(NO_DEACTIVATION_HISTORY)
    else if newId != id || !SameProvenance(before, m) then Err(IMMUTABLE_PROVENANCE)
    else WriteModel(db, id, m.(version := before.version + 1))
  }

  predicate KeysExist(db: Db, row: Activation) {
    && (row.target.Some? ==> row.target.value in db.models)
    && (row.previous.Some? ==> row.previous.value in db.models)
    && row.report in db.reports
  }

  predicate SequenceFree(log: seq<Activation>, row: Activation) {
    forall k :: 0 <= k < |log| ==> log[k].task != row.task || log[k].sequence != row.sequence
  }

  /** One row statement in a transaction that started at `now`; no row, no effect. */
  function Execute(db: Db, now: Time, s: Statement): Result<Db, SqlError> {
    match s
    case InsertModel(id, m) =>
      if m.status == ACTIVE then Err(NOT_BENCHMARKED)
      else if id in db.models then Err(UNIQUE_VIOLATION)
      else WriteModel(db, id, m)
    case UpdateModel(id, newId, m) => if id in db.models then UpdateRow(db, now, id, newId, m) else Ok(db)
    case DeleteModel(id) => if id in db.models then Err(IMMUTABLE_ROW) else Ok(db)
    case InsertReport(sha, report) =>
      if sha in db.reports then Err(UNIQUE_VIOLATION)
      else if report.model !in db.models then Err(FOREIGN_KEY_VIOLATION)
      else Ok(db.(reports := db.reports[sha := report]))
    case ChangeReport(sha) => if sha in db.reports then Err(IMMUTABLE_EVIDENCE) else Ok(db)
    case InsertActivation(row) =>
      if row.sequence < 1 then Err(CHECK_VIOLATION)
      else if !SequenceFree(db.log, row) then Err(UNIQUE_VIOLATION)
      else if !KeysExist(db, row) then Err(FOREIGN_KEY_VIOLATION)
      else Ok(db.(log := db.log + [row]))
    case ChangeActivation(k) => if k < |db.log| then Err(IMMUTABLE_EVIDENCE) else Ok(db)
  }

  datatype Transaction = Transaction(now: Time, statements: seq<Statement>)

  /** The statements in order; the first that fails undoes them all. */
  function Statements(db: Db, now: Time, statements: seq<Statement>): Result<Db, SqlError>
    decreases |statements|
  {
    if statements == [] then Ok(db)
    else
      match Execute(db, now, statements[0])
      case Err(e) => Err(e)
      case Ok(next) => Statements(next, now, statements[1..])
  }

  function Transact(db: Db, t: Transaction): Db {
    match Statements(db, t.now, t.statements)
    case Ok(next) => next
    case Err(_) => db
  }

  function Runs(db: Db, ts: seq<Transaction>): Db
    decreases |ts|
  {
    if ts == [] then db else Runs(Transact(db, ts[0]), ts[1..])
  }

  // ---------------------------------------------------------------- the migration

  /** A row of the table before the migration, whose status may be anything. */
  datatype LegacyModel = LegacyModel(task: string, provenance: nat, status: Status, version: nat)

  /** Adds the columns and blocks every existing model; the evidence tables are new. */
  function Migrate(legacy: map<ModelId, LegacyModel>): Db {
    Db(map id | id in legacy :: Model(legacy[id].task, legacy[id].provenance, None, BLOCKED, legacy[id].version + 1),
       map[], [])
  }

  // ---------------------------------------------------------------- what every run keeps

  predicate Approved(db: Db, id: ModelId) {
    id in db.models && exists k :: 0 <= k < |db.log| && Approves(db, db.log[k], id, db.models[id].task)
  }

  /** Every ACTIVE model has been activated for its task on an approved report about itself. */
  predicate DbOk(db: Db) {
    && (forall id :: id in db.models && db.models[id].status == ACTIVE ==> Approved(db, id))
    && (forall id :: id in db.models ==> ReviewOk(db.models[id]))
    && SingleActive(db.models)
    && (forall k :: 0 <= k < |db.log| ==> KeysExist(db, db.log[k]) && db.log[k].sequence >= 1)
    && (forall k, n :: 0 <= k < n < |db.log| ==>
          db.log[k].task != db.log[n].task || db.log[k].sequence != db.log[n].sequence)
    && (forall sha :: sha in db.reports ==> db.reports[sha].model in db.models)
  }

  /** What no statement can take back. */
  predicate Extends(before: Db, after: Db) {
    && before.log <= after.log
    && (forall sha :: sha in before.reports ==> sha in after.reports && after.reports[sha] == before.reports[sha])
    && (forall id :: id in before.models ==>
          && id in after.models && SameProvenance(before.models[id], after.models[id])
          && before.models[id].version <= after.models[id].version)
  }

  predicate IsActive(db: Db, id: ModelId) {
    id in db.models && db.models[id].status == ACTIVE
  }

  /** Between two databases, each model that became or ceased to be ACTIVE has a log row stamped `now`. */
  predicate MovesLogged(before: Db, after: Db, now: Time) {
    forall id :: id in after.models ==>
      && (!IsActive(before, id) && IsActive(after, id) ==> ActivationLogged(after, id, after.models[id].task, now))
      && (IsActive(before, id) && !IsActive(after, id) ==> DeactivationLogged(after, id, after.models[id].task, now))
  }

  lemma MigrationBase(legacy: map<ModelId, LegacyModel>)
    ensures DbOk(Migrate(legacy))
    ensures forall id :: id in legacy ==>
      id in Migrate(legacy).models && Migrate(legacy).models[id].status == BLOCKED
      && Migrate(legacy).models[id].review == None
  {
  }

  lemma LoggedStays(before: Db, after: Db, id: ModelId, task: string, now: Time)
    requires Extends(before, after)
    ensures ActivationLogged(before, id, task, now) ==> ActivationLogged(after, id, task, now)
    ensures DeactivationLogged(before, id, task, now) ==> DeactivationLogged(after, id, task, now)
  {
    if ActivationLogged(before, id, task, now) {
      var k :| 0 <= k < |before.log| && Approves(before, before.log[k], id, task) && before.log[k].createdAt == now;
      assert after.log[k] == before.log[k];
    }
    if DeactivationLogged(before, id, task, now) {
      var k :| 0 <= k < |before.log|
        && before.log[k].previous == Some(id) && before.log[k].task == task && before.log[k].createdAt == now;
      assert after.log[k] == before.log[k];
    }
  }

  lemma ApprovedStays(before: Db, after: Db, id: ModelId)
    requires Extends(before, after) && Approved(before, id)
    ensures Approved(after, id)
  {
    var k :| 0 <= k < |before.log| && Approves(before, before.log[k], id, before.models[id].task);
    assert after.log[k] == before.log[k];
  }

  lemma UpdateKeeps(db: Db, now: Time, id: ModelId, newId: ModelId, m: Model)
    requires DbOk(db) && id in db.models && UpdateRow(db, now, id, newId, m).Ok?
    ensures var next := UpdateRow(db, now, id, newId, m).value;
      DbOk(next) && Extends(db, next) && MovesLogged(db, next, now)
  {
    hide SingleActive, ReviewOk;
    var next := UpdateRow(db, now, id, newId, m).value;
    assert Extends(db, next);
    forall i | i in next.models && next.models[i].status == ACTIVE ensures Approved(next, i) {
      if i == id && db.models[id].status != ACTIVE {
        LoggedStays(db, next, id, m.task, now);
      } else {
        ApprovedStays(db, next, i);
      }
    }
    LoggedStays(db, next, id, m.task, now);
    assert forall k :: 0 <= k < |db.log| ==> KeysExist(db, db.log[k]) ==> KeysExist(next, db.log[k]);
  }

  lemma InsertModelKeeps(db: Db, now: Time, id: ModelId, m: Model)
    requires DbOk(db) && Execute(db, now, InsertModel(id, m)).Ok?
    ensures var next := Execute(db, now, InsertModel(id, m)).value;
      DbOk(next) && Extends(db, next) && MovesLogged(db, next, now)
  {
    hide SingleActive, ReviewOk, ActivationLogged, DeactivationLogged;
    var next := Execute(db, now, InsertModel(id, m)).value;
    assert next == db.(models := db.models[id := m]) && m.status != ACTIVE && id !in db.models;
    assert Extends(db, next);
    forall i | i in next.models && next.models[i].status == ACTIVE ensures Approved(next, i) {
      ApprovedStays(db, next, i);
    }
    assert forall k :: 0 <= k < |db.log| ==> KeysExist(db, db.log[k]) ==> KeysExist(next, db.log[k]);
  }

  lemma InsertReportKeeps(db: Db, now: Time, sha: Sha, report: Report)
    requires DbOk(db) && Execute(db, now, InsertReport(sha, report)).Ok?
    ensures var next := Execute(db, now, InsertReport(sha, report)).value;
      DbOk(next) && Extends(db, next) && MovesLogged(db, next, now)
  {
    hide SingleActive;
    var next := Execute(db, now, InsertReport(sha, report)).value;
    assert Extends(db, next);
    forall i | i in next.models && next.models[i].status == ACTIVE ensures Approved(next, i) {
      ApprovedStays(db, next, i);
    }
    assert forall k :: 0 <= k < |db.log| ==> KeysExist(db, db.log[k]) ==> KeysExist(next, db.log[k]);
  }

  lemma InsertActivationKeeps(db: Db, now: Time, row: Activation)
    requires DbOk(db) && Execute(db, now, InsertActivation(row)).Ok?
    ensures var next := Execute(db, now, InsertActivation(row)).value;
      DbOk(next) && Extends(db, next) && MovesLogged(db, next, now)
  {
    hide SingleActive;
    var next := Execute(db, now, InsertActivation(row)).value;
    assert next == db.(log := db.log + [row]);
    assert Extends(db, next);
    forall i | i in next.models && next.models[i].status == ACTIVE ensures Approved(next, i) {
      ApprovedStays(db, next, i);
    }
    forall k | 0 <= k < |next.log| ensures KeysExist(next, next.log[k]) && next.log[k].sequence >= 1 {
      assert k < |db.log| ==> KeysExist(db, db.log[k]);
    }
  }

  /** Every statement that succeeds keeps the invariant, takes nothing back, and logs its moves. */
  lemma StatementKeeps(db: Db, now: Time, s: Statement)
    requires DbOk(db) && Execute(db, now, s).Ok?
    ensures var next := Execute(db, now, s).value;
      DbOk(next) && Extends(db, next) && MovesLogged(db, next, now)
  {
    hide DbOk, MovesLogged, Extends;
    NothingMoved(db, now);
    match s
    case InsertModel(id, m) => InsertModelKeeps(db, now, id, m);
    case UpdateModel(id, newId, m) =>
      if id in db.models {
        UpdateKeeps(db, now, id, newId, m);
      }
    case InsertReport(sha, report) => InsertReportKeeps(db, now, sha, report);
    case InsertActivation(row) => InsertActivationKeeps(db, now, row);
    case _ =>
  }

  lemma ExtendsTransitive(a: Db, b: Db, c: Db)
    requires Extends(a, b) && Extends(b, c)
    ensures Extends(a, c)
  {
  }

  /** A model that is in the same state at both ends may have moved out and back; whoever differs at the
      ends moved in one of the halves, and its row is still in the log. */
  lemma MovesCompose(a: Db, b: Db, c: Db, now: Time)
    requires Extends(a, b) && Extends(b, c) && MovesLogged(a, b, now) && MovesLogged(b, c, now)
    ensures MovesLogged(a, c, now)
  {
    forall id | id in c.models
      ensures !IsActive(a, id) && IsActive(c, id) ==> ActivationLogged(c, id, c.models[id].task, now)
      ensures IsActive(a, id) && !IsActive(c, id) ==> DeactivationLogged(c, id, c.models[id].task, now)
    {
      LoggedStays(b, c, id, c.models[id].task, now);
    }
  }

  lemma {:induction false} StatementsKeep(db: Db, now: Time, statements: seq<Statement>)
    requires DbOk(db) && Statements(db, now, statements).Ok?
    ensures var next := Statements(db, now, statements).value;
      DbOk(next) && Extends(db, next) && MovesLogged(db, next, now)
    decreases |statements|
  {
    hide DbOk, Extends, MovesLogged, Execute;
    if statements == [] {
      NothingMoved(db, now);
    } else {
      var middle := Execute(db, now, statements[0]).value;
      StatementKeeps(db, now, statements[0]);
      StatementsKeep(middle, now, statements[1..]);
      var last := Statements(middle, now, statements[1..]).value;
      ExtendsTransitive(db, middle, last);
      MovesCompose(db, middle, last, now);
    }
  }

  lemma NothingMoved(db: Db, now: Time)
    ensures Extends(db, db) && MovesLogged(db, db, now)
  {
  }

  /** Activation safety over every run of transactions after the migration: the invariant holds, nothing
      is taken back, and the last transaction logged every move with its own time stamp. */
  lemma {:induction false} RunSafe(db: Db, ts: seq<Transaction>)
    requires DbOk(db)
    ensures DbOk(Runs(db, ts)) && Extends(db, Runs(db, ts))
    decreases |ts|
  {
    hide DbOk, Extends, Statements;
    if ts == [] {
      NothingMoved(db, 0);
    } else {
      TransactionSafe(db, ts[0]);
      RunSafe(Transact(db, ts[0]), ts[1..]);
      ExtendsTransitive(db, Transact(db, ts[0]), Runs(db, ts));
    }
  }

  lemma TransactionSafe(db: Db, t: Transaction)
    requires DbOk(db)
    ensures DbOk(Transact(db, t)) && Extends(db, Transact(db, t)) && MovesLogged(db, Transact(db, t), t.now)
  {
    hide DbOk, Extends, MovesLogged;
    if Statements(db, t.now, t.statements).Ok? {
      StatementsKeep(db, t.now, t.statements);
    } else {
      NothingMoved(db, t.now);
    }
  }

  /** From the migration on, in every state of every run, an ACTIVE model was activated for its own task on
      an approved report about itself, and no other model is ACTIVE for that task. */
  lemma ActivationSafety(legacy: map<ModelId, LegacyModel>, ts: seq<Transaction>, id: ModelId)
    requires IsActive(Runs(Migrate(legacy), ts), id)
    ensures var db := Runs(Migrate(legacy), ts);
      && Approved(db, id)
      && (forall other :: IsActive(db, other) && db.models[other].task == db.models[id].task ==> other == id)
  {
    MigrationBase(legacy);
    RunSafe(Migrate(legacy), ts);
  }

  /** A model from before the migration can never be used again: its missing review reference is part of
      its provenance, and only BLOCKED rows may lack one. */
  lemma LegacyBlocked(legacy: map<ModelId, LegacyModel>, ts: seq<Transaction>, id: ModelId)
    requires id in legacy
    ensures var db := Runs(Migrate(legacy), ts);
      id in db.models && db.models[id].status == BLOCKED
  {
    MigrationBase(legacy);
    RunSafe(Migrate(legacy), ts);
    var db := Runs(Migrate(legacy), ts);
    assert SameProvenance(Migrate(legacy).models[id], db.models[id]);
    assert ReviewOk(db.models[id]);
  }

  // ---------------------------------------------------------------- the application's activation

  datatype ActivateError = ACTION_INVALID | GATE_FAILED | ROLLBACK_FAILED | REFUSED_BY_DATABASE

  /** The latest row of a task, by its sequence. */
  function Latest(log: seq<Activation>, task: string): (row: Option<Activation>)
    ensures row.Some? ==> row.value in log && row.value.task == task
    ensures forall r :: r in log && r.task == task ==> row.Some? && r.sequence <= row.value.sequence
  {
    if log == [] then None
    else
      var rest, last := Latest(log[..|log| - 1], task), log[|log| - 1];
      if last.task == task && (rest.None? || rest.value.sequence <= last.sequence) then Some(last) else rest
  }

  function Actives(db: Db, task: string): set<ModelId> {
    set id | id in db.models && db.models[id].status == ACTIVE && db.models[id].task == task
  }

  predicate TargetOk(db: Db, task: string, target: ModelId, report: Sha) {
    && target in db.models && db.models[target].task == task && db.models[target].status != BLOCKED
    && report in db.reports && db.reports[report].model == target && db.reports[report].decision == APPROVED
  }

  /** A rollback returns to the model before the last activation, while its window is open. */
  predicate RollbackOk(db: Db, task: string, target: ModelId, now: Time) {
    && Latest(db.log, task).Some?
    && var latest := Latest(db.log, task).value;
       && latest.target.Some? && latest.target.value in Actives(db, task)
       && latest.previous == Some(target)
       && latest.rollbackUntil.Some? && latest.rollbackUntil.value > now
  }

  predicate MayActivate(db: Db, task: string, target: ModelId, report: Sha, until: Time, action: Action, now: Time) {
    && TargetOk(db, task, target, report)
    && match action
       case ACTIVATE => until > now && target !in Actives(db, task)
       case ROLLBACK => RollbackOk(db, task, target, now)
       case DEACTIVATE => false
  }

  function Demoted(m: Model): Model {
    m.(status := BENCHMARK)
  }

  function Promoted(m: Model): Model {
    m.(status := ACTIVE)
  }

  function Bumped(m: Model): Model {
    m.(version := m.version + 1)
  }

  /** The row names the model that was active, and when and until when it was replaced. */
  predicate Records(before: Db, row: Activation, task: string, action: Action, until: Option<Time>, now: Time) {
    && Actives(before, task) == (if row.previous.Some? then {row.previous.value} else {})
    && row.action == action && row.createdAt == now && row.rollbackUntil == until
  }

  /** The log accepts the row: its sequence is above every other for the same task. */
  lemma LogStep(db: Db, now: Time, row: Activation)
    requires DbOk(db) && KeysExist(db, row)
    requires row.sequence == 1 + (if Latest(db.log, row.task).None? then 0 else Latest(db.log, row.task).value.sequence)
    ensures Execute(db, now, InsertActivation(row)) == Ok(db.(log := db.log + [row]))
    ensures DbOk(db.(log := db.log + [row]))
    ensures forall r :: r in db.log && r.task == row.task ==> r.sequence < row.sequence
  {
    hide DbOk, KeysExist;
    forall k | 0 <= k < |db.log| ensures db.log[k].task != row.task || db.log[k].sequence != row.sequence {
      assert db.log[k] in db.log;
    }
    InsertActivationKeeps(db, now, row);
  }

  /** The active model may step down once that is logged. */
  lemma DemoteStep(db: Db, now: Time, id: ModelId)
    requires DbOk(db) && IsActive(db, id) && DeactivationLogged(db, id, db.models[id].task, now)
    ensures var next := db.(models := db.models[id := Bumped(Demoted(db.models[id]))]);
      && Execute(db, now, UpdateModel(id, id, Demoted(db.models[id]))) == Ok(next) && DbOk(next)
  {
    var m := Demoted(db.models[id]);
    assert ReviewOk(db.models[id]) && ReviewOk(Bumped(m));
    assert SingleActive(db.models[id := Bumped(m)]);
    hide DbOk, SingleActive, ReviewOk, DeactivationLogged;
    assert UpdateRow(db, now, id, id, m) == WriteModel(db, id, Bumped(m));
    UpdateKeeps(db, now, id, id, m);
  }

  /** And a model may step up once that is logged and no other is active for its task. */
  lemma PromoteStep(db: Db, now: Time, id: ModelId)
    requires DbOk(db) && id in db.models && db.models[id].status != BLOCKED
    requires ActivationLogged(db, id, db.models[id].task, now) && Actives(db, db.models[id].task) <= {id}
    ensures var next := db.(models := db.models[id := Bumped(Promoted(db.models[id]))]);
      && Execute(db, now, UpdateModel(id, id, Promoted(db.models[id]))) == Ok(next) && DbOk(next)
  {
    var m := Promoted(db.models[id]);
    assert ReviewOk(db.models[id]) && ReviewOk(Bumped(m));
    assert SingleActive(db.models[id := Bumped(m)]) by {
      forall other | IsActive(db, other) && db.models[other].task == db.models[id].task ensures other == id {
        assert other in Actives(db, db.models[id].task);
      }
    }
    hide DbOk, SingleActive, ReviewOk, ActivationLogged;
    assert UpdateRow(db, now, id, id, m) == WriteModel(db, id, Bumped(m));
    UpdateKeeps(db, now, id, id, m);
  }

  lemma ActivesAfter(db: Db, task: string, id: ModelId, m: Model)
    requires id in db.models && db.models[id].task == task && m.task == task
    ensures Actives(db.(models := db.models[id := m]), task)
      == if m.status == ACTIVE then Actives(db, task) + {id} else Actives(db, task) - {id}
  {
  }

  class Registry {
    var db: Db

    constructor (db: Db)
      ensures this.db == db
    {
      this.db := db;
    }

    method Apply(now: Time, s: Statement) returns (ok: bool)
      modifies this
      ensures ok ==> Execute(old(db), now, s) == Ok(db)
      ensures !ok ==> db == old(db) && Execute(old(db), now, s).Err?
    {
      var result := Execute(db, now, s);
      if result.Ok? {
        db := result.value;
      }
      ok := result.Ok?;
    }

    /** One transaction that switches the active model of a task. It succeeds exactly when its own gates
        allow it: no trigger or constraint ever refuses it, because it logs first, demotes second and
        activates last. */
    method Activate(task: string, target: ModelId, report: Sha, until: Time, action: Action, now: Time)
      returns (result: Result<nat, ActivateError>)
      requires DbOk(db)
      modifies this
      ensures DbOk(db)
      ensures result.Ok? <==> old(MayActivate(db, task, target, report, until, action, now))
      ensures result.Err? ==> db == old(db) && result.error != REFUSED_BY_DATABASE
      ensures result.Ok? ==>
        && Actives(db, task) == {target}
        && |db.log| == |old(db).log| + 1 && old(db).log < db.log
        && Approves(db, db.log[|old(db).log|], target, task) && db.log[|old(db).log|].sequence == result.value
        && Records(old(db), db.log[|old(db).log|], task, action,
                   if action == ROLLBACK then old(Latest(db.log, task).value.rollbackUntil) else Some(until), now)
        && (forall r :: r in old(db).log && r.task == task ==> r.sequence < result.value)
        && (forall id :: id in old(Actives(db, task)) && id != target ==>
              id in db.models && db.models[id] == Bumped(Demoted(old(db).models[id])))
        && (forall id :: id in old(db).models && id != target && id !in old(Actives(db, task)) ==>
              id in db.models && db.models[id] == old(db).models[id])
    {
      hide DbOk, ReviewOk;
      if action == DEACTIVATE {
        return Err(ACTION_INVALID);
      }
      if !TargetOk(db, task, target, report) {
        return Err(GATE_FAILED);
      }
      var latest := Latest(db.log, task);
      var effectiveUntil := until;
      if action == ROLLBACK {
        if !RollbackOk(db, task, target, now) {
          return Err(ROLLBACK_FAILED);
        }
        effectiveUntil := latest.value.rollbackUntil.value;
      } else if until <= now || target in Actives(db, task) {
        return Err(GATE_FAILED);
      }
      result := Switch(task, target, report, effectiveUntil, action, now);
    }

    /** The statements themselves: log, demote the previous model, promote the target. */
    method Switch(task: string, target: ModelId, report: Sha, until: Time, action: Action, now: Time)
      returns (result: Result<nat, ActivateError>)
      requires DbOk(db) && TargetOk(db, task, target, report)
      modifies this
      ensures DbOk(db) && result.Ok?
      ensures Actives(db, task) == {target}
      ensures |db.log| == |old(db).log| + 1 && old(db).log < db.log
      ensures Approves(db, db.log[|old(db).log|], target, task) && db.log[|old(db).log|].sequence == result.value
      ensures Records(old(db), db.log[|old(db).log|], task, action, Some(until), now)
      ensures forall r :: r in old(db).log && r.task == task ==> r.sequence < result.value
      ensures forall id :: id in old(Actives(db, task)) && id != target ==>
        id in db.models && db.models[id] == Bumped(Demoted(old(db).models[id]))
      ensures forall id :: id in old(db).models && id != target && id !in old(Actives(db, task)) ==>
        id in db.models && db.models[id] == old(db).models[id]
    {
      hide DbOk, ReviewOk, Execute;
      var previous := ActiveOf(task);
      var latest := Latest(db.log, task);
      var sequence := 1 + (if latest.None? then 0 else latest.value.sequence);
      var row := Activation(task, sequence, Some(target), previous, action, report, Some(until), now);
      LogStep(db, now, row);
      var ok := Apply(now, InsertActivation(row));
      assert db.log[|old(db).log|] == row;
      if previous.Some? && previous.value != target {
        DemoteStep(db, now, previous.value);
        ActivesAfter(db, task, previous.value, Bumped(Demoted(db.models[previous.value])));
        ok := Apply(now, UpdateModel(previous.value, previous.value, Demoted(db.models[previous.value])));
      }
      if db.models[target].status != ACTIVE {
        assert Approves(db, db.log[|old(db).log|], target, task);
        PromoteStep(db, now, target);
        ActivesAfter(db, task, target, Bumped(Promoted(db.models[target])));
        ok := Apply(now, UpdateModel(target, target, Promoted(db.models[target])));
      }
      return Ok(sequence);
    }

    /** The unique index leaves at most one. */
    method ActiveOf(task: string) returns (active: Option<ModelId>)
      requires DbOk(db)
      ensures Actives(db, task) == if active.Some? then {active.value} else {}
    {
      var actives := Actives(db, task);
      if actives == {} {
        return None;
      }
      var id :| id in actives;
      assert forall other :: other in actives ==> other == id;
      return Some(id);
    }
  }
}
