/** Every production transaction as one value, and what each of them keeps on any store,
    also one with projects older than the workflow tables. */
module Calls {
  import opened Prelude
  import opened Tables
  import opened Workflows
  import opened Operations
  import opened Reading
  import opened ReadingLaws

  /** Calls made on behalf of clients. */
  datatype ClientCall =
    | DoCreateProject(promptChars: nat)
    | DoCreateRun(p: Id, promptChars: nat, base: Option<Id>, canStart: bool)
    | DoRetry(r: Id)
    | DoWriteFile(p: Id, content: string, base: Option<Id>)
    | DoRestore(p: Id, v: Id)
    | DoRead(p: Id)
    | DoCompileResult(r: Id, sequence: nat, ref: string, known: bool)

  /** Calls made by the agent loop. */
  datatype AgentCall =
    | DoEvent(r: Id, kind: EventKind)
    | DoArtifact(r: Id, a: Id, stage: Stage, ref: string)
    | DoBegin(r: Id, a: Id)
    | DoDraft(p: Id, it: Id, files: seq<Snapshot>)
    | DoPromote(v: Id, owner: Option<(Id, Id)>)
    | DoFailDraft(v: Id, owner: Option<(Id, Id)>)
    | DoFailRun(r: Id)

  /** The tables of an outcome that also carries a reply. */
  function TablesOf<T>(res: Result<(Db, T)>): Result<Db> {
    match res case Ok(x) => Ok(x.0) case Err(e) => Err(e)
  }

  ghost function Serve(db: Db, c: ClientCall, now: Time): Result<Db> {
    match c
    case DoCreateProject(n) => TablesOf(CreateProject(db, n, now))
    case DoCreateRun(p, n, base, canStart) => TablesOf(CreateRun(db, p, n, base, canStart, now))
    case DoRetry(r) => TablesOf(RetryRun(db, r, now))
    case DoWriteFile(p, content, base) => TablesOf(WriteFile(db, p, content, base, now))
    case DoRestore(p, v) => TablesOf(RestoreVersion(db, p, v, now))
    case DoRead(p) => TablesOf(GetProject(db, p, now))
    case DoCompileResult(r, sequence, ref, known) => CompileResult(db, r, sequence, ref, known, now)
  }

  function Perform(db: Db, c: AgentCall, now: Time): Result<Db> {
    match c
    case DoEvent(r, kind) => AppendEvent(db, r, kind, now)
    case DoArtifact(r, a, stage, ref) => RecordArtifact(db, r, a, stage, ref, now)
    case DoBegin(r, a) => BeginAttempt(db, r, a, now)
    case DoDraft(p, it, files) => TablesOf(CreateDraft(db, p, it, files))
    case DoPromote(v, owner) => TablesOf(Promote(db, v, owner, now))
    case DoFailDraft(v, owner) => TablesOf(FailDraft(db, v, owner, now))
    case DoFailRun(r) => FailRun(db, r, now)
  }

  /** A run's stage rows come only with a workflow row for its project. */
  ghost predicate HistoryStep(db: Db, d: Db) {
    |db.runs| <= |d.runs| && db.workflows.Keys <= d.workflows.Keys &&
    (forall r :: 0 <= r < |db.runs| ==>
      d.runs[r].project == db.runs[r].project &&
      (d.runs[r].stages == db.runs[r].stages || db.runs[r].project in d.workflows)) &&
    (forall r :: |db.runs| <= r < |d.runs| ==> d.runs[r].project in d.workflows) &&
    FlowsOwn(d)
  }

  lemma HistoryStepKeeps(db: Db, d: Db)
    requires HistoryOk(db) && HistoryStep(db, d)
    ensures HistoryOk(d)
  {
  }

  lemma BumpHistory(db: Db, r: Id, status: WorkflowStatus, now: Time)
    requires FlowsOwn(db) && r < |db.runs|
    ensures Bump(db, r, status, now).Ok?
    ensures var d := Bump(db, r, status, now).value;
            d == db.(workflows := d.workflows) && db.workflows.Keys <= d.workflows.Keys &&
            db.runs[r].project in d.workflows && FlowsOwn(d)
  {
    if PointedAt(db.workflows, r) {
      var p :| p in db.workflows && db.workflows[p].run == Some(r);
      assert db.runs[r].project == p;
    }
  }

  /** A write of one run's row followed by a bump of that run. */
  lemma RunThenBump(db: Db, r: Id, row: Run, status: WorkflowStatus, now: Time)
    requires HistoryOk(db) && r < |db.runs| && row.project == db.runs[r].project
    ensures Bump(db.(runs := db.runs[r := row]), r, status, now).Ok?
    ensures HistoryStep(db, Bump(db.(runs := db.runs[r := row]), r, status, now).value)
  {
    hide Bump;
    BumpHistory(db.(runs := db.runs[r := row]), r, status, now);
  }

  lemma {:induction false} CancelHistory(db: Db, k: nat, now: Time)
    requires HistoryOk(db) && k <= |db.runs| && CancelActive(db, k, now).Ok?
    ensures HistoryOk(CancelActive(db, k, now).value)
  {
    hide Bump;
    if k > 0 {
      CancelHistory(db, k - 1, now);
      var db1 := CancelActive(db, k - 1, now).value;
      if db1.runs[k - 1].status.Active() {
        var row := CancelStages(db1.runs[k - 1], now);
        RunThenBump(db1, k - 1, row, CancelledFlow, now);
        HistoryStepKeeps(db1, CancelActive(db, k, now).value);
      }
    }
  }

  lemma OwnerHistory(db: Db, owner: Option<(Id, Id)>, status: Status, now: Time)
    requires HistoryOk(db) && EndOwner(db, owner, status, now).Ok?
    ensures HistoryOk(EndOwner(db, owner, status, now).value)
  {
    if owner.Some? {
      var (r, a) := owner.value;
      RunThenBump(db, r, EndRun(db.runs[r], a, status, now), FlowOf(status), now);
      HistoryStepKeeps(db, EndOwner(db, owner, status, now).value);
    }
  }

  lemma EventHistory(db: Db, r: Id, kind: EventKind, now: Time)
    requires HistoryOk(db) && AppendEvent(db, r, kind, now).Ok?
    ensures HistoryOk(AppendEvent(db, r, kind, now).value)
  {
    hide Bump;
    var d := AppendEvent(db, r, kind, now).value;
    var run := db.runs[r];
    var logged := run.(log := run.log + [Event(MaxEventSeq(run.log) + 1, kind, now)]);
    var db0 := db.(runs := db.runs[r := logged]);
    assert HistoryStep(db, db0);
    HistoryStepKeeps(db, db0);
    match kind
    case RunStarted =>
      RunThenBump(db0, r, logged, RunningFlow, now);
      assert db0.runs[r := logged] == db0.runs;
      HistoryStepKeeps(db0, d);
    case StageStarted(stage) =>
      StageEventHistory(db0, r, stage, InProgress, now, None, RunningFlow);
    case StageArtifact(stage) =>
      StageEventHistory(db0, r, stage, StageStatus.Done, now, None, RunningFlow);
    case RunFailed(stage, code) =>
      if stage.Some? {
        StageEventHistory(db0, r, stage.value, Broken, now, if code == "" then None else Some(code), FailedFlow);
      } else {
        RunThenBump(db0, r, logged, FailedFlow, now);
        assert db0.runs[r := logged] == db0.runs;
        HistoryStepKeeps(db0, d);
      }
    case RunCompleted =>
      RunThenBump(db0, r, logged, CompletedFlow, now);
      assert db0.runs[r := logged] == db0.runs;
      HistoryStepKeeps(db0, d);
    case _ =>
  }

  lemma StageEventHistory(db: Db, r: Id, stage: Stage, status: StageStatus, now: Time, code: Option<string>, flow: WorkflowStatus)
    requires HistoryOk(db) && r < |db.runs| && OnActiveAttempt(db, r, stage, status, now, code).Ok?
    ensures var db1 := OnActiveAttempt(db, r, stage, status, now, code).value;
            Bump(db1, r, flow, now).Ok? && HistoryOk(Bump(db1, r, flow, now).value)
  {
    var db1 := OnActiveAttempt(db, r, stage, status, now, code).value;
    RunThenBump(db, r, db1.runs[r], flow, now);
    assert db.runs[r := db1.runs[r]] == db1.runs;
    HistoryStepKeeps(db, Bump(db1, r, flow, now).value);
  }

  lemma RetryHistory(db: Db, r: Id, now: Time)
    requires HistoryOk(db) && RetryRun(db, r, now).Ok?
    ensures HistoryOk(RetryRun(db, r, now).value.0)
  {
    hide Bump, InitStages;
    var run := db.runs[r];
    var a, sequence := |run.attempts|, MaxSequence(run.attempts) + 1;
    RunThenBump(db, r, run.(
      attempts := run.attempts + [Attempt(sequence, Running)], activeAttempt := Some(a), status := Running,
      updatedAt := now, stages := InitStages(run.stages, a, sequence, now)), RunningFlow, now);
    HistoryStepKeeps(db, RetryRun(db, r, now).value.0);
  }

  lemma BeginHistory(db: Db, r: Id, a: Id, now: Time)
    requires HistoryOk(db) && BeginAttempt(db, r, a, now).Ok?
    ensures HistoryOk(BeginAttempt(db, r, a, now).value)
  {
    var run := db.runs[r];
    var attempts := if a < |run.attempts| && run.attempts[a].status == Queued then EndAttempt(run.attempts, a, Running)
                    else run.attempts;
    RunThenBump(db, r, run.(attempts := attempts, status := Running, updatedAt := now), RunningFlow, now);
    HistoryStepKeeps(db, BeginAttempt(db, r, a, now).value);
  }

  lemma FailRunHistory(db: Db, r: Id, now: Time)
    requires HistoryOk(db) && FailRun(db, r, now).Ok?
    ensures HistoryOk(FailRun(db, r, now).value)
  {
    var run := db.runs[r];
    RunThenBump(db, r, run.(attempts := FailedAttempts(run.attempts), status := Failed, activeAttempt := None,
                            updatedAt := now), FailedFlow, now);
    HistoryStepKeeps(db, FailRun(db, r, now).value);
  }

  lemma ArtifactHistory(db: Db, r: Id, a: Id, stage: Stage, ref: string, now: Time)
    requires HistoryOk(db) && RecordArtifact(db, r, a, stage, ref, now).Ok?
    ensures HistoryOk(RecordArtifact(db, r, a, stage, ref, now).value)
  {
    var run := db.runs[r];
    var run1 := run.(artifacts := run.artifacts + [Artifact(a, stage, ref, now)]);
    RunThenBump(db, r, SetStage(run1, a, run.attempts[a].sequence, stage, StageStatus.Done, now, None), RunningFlow, now);
    HistoryStepKeeps(db, RecordArtifact(db, r, a, stage, ref, now).value);
  }

  lemma RecoverHistory(db: Db, p: Id, stable: Option<Id>, now: Time)
    requires HistoryOk(db) && p !in db.workflows && Recover(db, p, stable, now).Ok?
    ensures HistoryOk(Recover(db, p, stable, now).value) && p in Recover(db, p, stable, now).value.workflows
  {
    var d := Recover(db, p, stable, now).value;
    assert HistoryStep(db, d);
    HistoryStepKeeps(db, d);
  }

  lemma SnapshotHistory(db: Db, p: Id, stable: Option<Id>, now: Time)
    requires HistoryOk(db) && LoadSnapshot(db, p, stable, now).Ok?
    ensures HistoryOk(LoadSnapshot(db, p, stable, now).value.0)
  {
    var d := LoadSnapshot(db, p, stable, now).value.0;
    var preview := Lineage.Provenance(db.versions, db.iterations, stable);
    ReconcileEffect(db, p, stable, preview, now);
    ReconcileOwn(db, p, stable, preview, now);
    assert HistoryStep(db, d);
    HistoryStepKeeps(db, d);
  }

  lemma ReconcileOwn(db: Db, p: Id, stable: Option<Id>, preview: Option<Id>, now: Time)
    requires FlowsOwn(db) && p in db.workflows && Reconcile(db, p, stable, preview, now).Ok?
    ensures FlowsOwn(Reconcile(db, p, stable, preview, now).value.0)
  {
    hide StageRows, Bump, ConflictsOf, OpenCodes;
    var w := db.workflows[p];
    if w.run.Some? && db.runs[w.run.value].status == Succeeded {
      var r := w.run.value;
      var codes := ConflictsOf(stable, preview, r, db.runs[r], StageRows(db.runs[r]));
      BumpHistory(db.(conflicts := Recorded(db.conflicts, p, r, codes)), r, RecoveringFlow, now);
      BumpHistory(db.(conflicts := Resolved(db.conflicts, p, now)), r, CompletedFlow, now);
    }
  }

  lemma ReadKeepsHistory(db: Db, p: Id, now: Time)
    requires HistoryOk(db) && GetProject(db, p, now).Ok?
    ensures HistoryOk(GetProject(db, p, now).value.0)
  {
    hide LoadSnapshot, Recover;
    var stable := db.projects[p].stable;
    var db0 := db.(projects := db.projects[p := Project(stable, now)]);
    assert HistoryStep(db, db0);
    HistoryStepKeeps(db, db0);
    if p in db0.workflows {
      SnapshotHistory(db0, p, stable, now);
    } else {
      RecoverHistory(db0, p, stable, now);
      SnapshotHistory(Recover(db0, p, stable, now).value, p, stable, now);
    }
  }

  lemma PromoteHistory(db: Db, v: Id, owner: Option<(Id, Id)>, now: Time)
    requires HistoryOk(db) && Promote(db, v, owner, now).Ok?
    ensures HistoryOk(Promote(db, v, owner, now).value.0)
  {
    var d := Promote(db, v, owner, now).value.0;
    if d != db {
      var version := db.versions[v];
      var it := db.iterations[version.iteration];
      var db1 := db.(
        versions := db.versions[v := version.(status := StableVersion)],
        iterations := db.iterations[version.iteration := it.(result := Some(v))],
        projects := db.projects[version.project := Project(Some(v), now)]);
      HistoryStepKeeps(db, db1);
      OwnerHistory(db1, owner, Succeeded, now);
    }
  }

  lemma FailDraftHistory(db: Db, v: Id, owner: Option<(Id, Id)>, now: Time)
    requires HistoryOk(db) && FailDraft(db, v, owner, now).Ok?
    ensures HistoryOk(FailDraft(db, v, owner, now).value.0)
  {
    hide EndOwner;
    var d := FailDraft(db, v, owner, now).value.0;
    if d != db {
      var version := db.versions[v];
      var db1 := db.(
        versions := db.versions[v := version.(status := FailedVersion)],
        iterations := if version.iteration < |db.iterations|
                      then db.iterations[version.iteration := db.iterations[version.iteration].(result := Some(v))]
                      else db.iterations);
      HistoryStepKeeps(db, db1);
      OwnerHistory(db1, owner, Failed, now);
    }
  }

  ghost predicate KeptBy(db: Db, c: ClientCall, now: Time) {
    Serve(db, c, now).Ok? ==> HistoryOk(Serve(db, c, now).value)
  }

  lemma CreateProjectHistory(db: Db, n: nat, now: Time)
    requires HistoryOk(db)
    ensures KeptBy(db, DoCreateProject(n), now)
  {
    hide GetProject, WriteFile, CompileResult, CreateRun;
    if CreateProject(db, n, now).Ok? {
      HistoryStepKeeps(db, CreateProject(db, n, now).value.0);
    }
  }

  lemma CreateRunHistory(db: Db, p: Id, n: nat, base: Option<Id>, canStart: bool, now: Time)
    requires HistoryOk(db)
    ensures KeptBy(db, DoCreateRun(p, n, base, canStart), now)
  {
    hide GetProject, WriteFile;
    if CreateRun(db, p, n, base, canStart, now).Ok? {
      HistoryStepKeeps(db, CreateRun(db, p, n, base, canStart, now).value.0);
    }
  }

  lemma EditHistory(db: Db, p: Id, content: string, base: Option<Id>, now: Time)
    requires HistoryOk(db)
    ensures KeptBy(db, DoWriteFile(p, content, base), now)
  {
    if WriteFile(db, p, content, base, now).Ok? {
      HistoryStepKeeps(db, WriteFile(db, p, content, base, now).value.0);
    }
  }

  lemma RestoreHistory(db: Db, p: Id, v: Id, now: Time)
    requires HistoryOk(db)
    ensures KeptBy(db, DoRestore(p, v), now)
  {
    hide GetProject, WriteFile, CreateRun, RetryRun, RecordArtifact;
    if RestoreVersion(db, p, v, now).Ok? {
      HistoryStepKeeps(db, RestoreVersion(db, p, v, now).value.0);
    }
  }

  lemma RetryKept(db: Db, r: Id, now: Time)
    requires HistoryOk(db)
    ensures KeptBy(db, DoRetry(r), now)
  {
    hide GetProject, WriteFile, CompileResult, RetryRun, CreateRun;
    if RetryRun(db, r, now).Ok? {
      RetryHistory(db, r, now);
    }
  }

  lemma ReadKept(db: Db, p: Id, now: Time)
    requires HistoryOk(db)
    ensures KeptBy(db, DoRead(p), now)
  {
    hide GetProject, WriteFile, CompileResult, RetryRun, CreateRun;
    if GetProject(db, p, now).Ok? {
      ReadKeepsHistory(db, p, now);
    }
  }

  lemma CompileResultKept(db: Db, r: Id, sequence: nat, ref: string, known: bool, now: Time)
    requires HistoryOk(db)
    ensures KeptBy(db, DoCompileResult(r, sequence, ref, known), now)
  {
    hide GetProject, CreateRun, RetryRun, RecordArtifact;
    if CompileResult(db, r, sequence, ref, known, now).Ok? && !known {
      ArtifactHistory(db, r, AttemptWithSequence(db.runs[r].attempts, sequence).value, Qa, ref, now);
    }
  }

  /** No client call leaves stage rows behind in a project without a workflow row, so the
      backfill of an old project never collides. */
  lemma ClientCallsKeepHistory(db: Db, c: ClientCall, now: Time)
    requires HistoryOk(db)
    ensures KeptBy(db, c, now)
  {
    hide *;
    match c
    case DoCreateProject(n) => CreateProjectHistory(db, n, now);
    case DoCreateRun(p, n, base, canStart) => CreateRunHistory(db, p, n, base, canStart, now);
    case DoRetry(r) => RetryKept(db, r, now);
    case DoWriteFile(p, content, base) => EditHistory(db, p, content, base, now);
    case DoRestore(p, v) => RestoreHistory(db, p, v, now);
    case DoRead(p) => ReadKept(db, p, now);
    case DoCompileResult(r, sequence, ref, known) => CompileResultKept(db, r, sequence, ref, known, now);
  }

  /** Nor does a call of the agent loop. */
  lemma AgentCallsKeepHistory(db: Db, c: AgentCall, now: Time)
    requires HistoryOk(db) && Perform(db, c, now).Ok?
    ensures HistoryOk(Perform(db, c, now).value)
  {
    match c
    case DoEvent(r, kind) => EventHistory(db, r, kind, now);
    case DoArtifact(r, a, stage, ref) => ArtifactHistory(db, r, a, stage, ref, now);
    case DoBegin(r, a) => BeginHistory(db, r, a, now);
    case DoDraft(_, _, _) => HistoryStepKeeps(db, Perform(db, c, now).value);
    case DoPromote(v, owner) => PromoteHistory(db, v, owner, now);
    case DoFailDraft(v, owner) => FailDraftHistory(db, v, owner, now);
    case DoFailRun(r) => FailRunHistory(db, r, now);
  }

  /** Nor does the start-up reconciliation. */
  lemma RestartKeepsHistory(db: Db, now: Time)
    requires HistoryOk(db) && MarkInterrupted(db, now).Ok?
    ensures HistoryOk(MarkInterrupted(db, now).value)
  {
    hide CancelActive;
    CancelHistory(db, |db.runs|, now);
    HistoryStepKeeps(CancelActive(db, |db.runs|, now).value, MarkInterrupted(db, now).value);
  }
}
