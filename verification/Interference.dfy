/** What every step of the system that is not the agent's own leaves alone while the
    agent's run is active: the run itself, the versions made for it and the stable version
    of its project.  This is what the agent loop may rely on between two store calls. */
module Interference {
  import opened Prelude
  import opened Tables
  import opened Workflows
  import opened Operations
  import opened Invariant
  import opened RunSteps
  import opened VersionSteps
  import opened ReadSteps
  import opened Reading
  import opened Calls
  import opened Systems
  import opened SystemSafety

  /** Was version `v` made for run `r`? */
  predicate MadeFor(db: Db, v: Id, r: Id) {
    v < |db.versions| && db.versions[v].iteration < |db.iterations| &&
    db.iterations[db.versions[v].iteration].run == Some(r)
  }

  /** The versions of run `r` and the stable version of its project stay as they are. */
  ghost predicate Untouched(db: Db, d: Db, r: Id) {
    r < |db.runs| <= |d.runs| && d.runs[r].project == db.runs[r].project &&
    db.runs[r].project < |db.projects| <= |d.projects| &&
    d.projects[db.runs[r].project].stable == db.projects[db.runs[r].project].stable &&
    |db.versions| <= |d.versions| &&
    forall v: Id :: MadeFor(d, v, r) ==>
      v < |db.versions| && MadeFor(db, v, r) && d.versions[v].status == db.versions[v].status
  }

  /** Of the run's own row only its stages and its log may change, and without a disruptive
      event no stage is taken back. */
  ghost predicate Respected(db: Db, d: Db, r: Id) {
    r < |db.runs| <= |d.runs| && (Disrupted(db.runs[r], d.runs[r]) || KeepsDone(db.runs[r], d.runs[r]))
  }

  /** The run stays active with the same attempts, and what belongs to it is untouched. */
  ghost predicate Undisturbed(db: Db, d: Db, r: Id) {
    Grows(db, d) && Untouched(db, d, r) && Respected(db, d, r) &&
    d.runs[r].status.Active() && |d.runs[r].attempts| == |db.runs[r].attempts|
  }

  lemma UndisturbedReflexive(db: Db, r: Id)
    requires r < |db.runs| && db.runs[r].status.Active() && db.runs[r].project < |db.projects|
    ensures Undisturbed(db, db, r)
  {
  }

  lemma UndisturbedTransitive(a: Db, b: Db, c: Db, r: Id)
    requires Undisturbed(a, b, r) && Undisturbed(b, c, r)
    ensures Undisturbed(a, c, r)
  {
    GrowsTransitive(a, b, c);
    assert RunKept(a.runs[r], b.runs[r]) && RunKept(b.runs[r], c.runs[r]);
    RespectedTransitive(a.runs[r], b.runs[r], c.runs[r]);
  }

  lemma RespectedTransitive(a: Run, b: Run, c: Run)
    requires a.log <= b.log <= c.log
    requires Disrupted(a, b) || KeepsDone(a, b)
    requires Disrupted(b, c) || KeepsDone(b, c)
    ensures Disrupted(a, c) || KeepsDone(a, c)
  {
    if Disrupted(a, b) {
      var k :| |a.log| <= k < |b.log| && Disruptive(b.log[k].kind);
      assert c.log[k] == b.log[k];
    }
  }

  /** The iterations of versions never change, so only statuses and new versions matter. */
  lemma QuietUntouched(db: Db, ro: FileSet, d: Db, r: Id)
    requires Inv(db, ro) && Grows(db, d) && r < |db.runs|
    requires d.projects[db.runs[r].project].stable == db.projects[db.runs[r].project].stable
    requires forall v: Id :: MadeFor(db, v, r) ==> d.versions[v].status == db.versions[v].status
    requires forall v: Id :: |db.versions| <= v ==> !MadeFor(d, v, r)
    ensures Untouched(db, d, r)
  {
    hide AppPasses, RunOk;
    assert RunKept(db.runs[r], d.runs[r]);
    forall v: Id | MadeFor(d, v, r) ensures v < |db.versions| && MadeFor(db, v, r) {
      assert VersionOk(db, ro, v) && VersionKept(db.versions[v], d.versions[v]);
      assert IterationKept(db.iterations[db.versions[v].iteration], d.iterations[d.versions[v].iteration]);
    }
  }

  lemma SameVersionsUntouched(db: Db, ro: FileSet, d: Db, r: Id)
    requires Inv(db, ro) && Grows(db, d) && r < |db.runs| && d.versions == db.versions
    requires forall p :: 0 <= p < |db.projects| ==> d.projects[p].stable == db.projects[p].stable
    ensures Untouched(db, d, r)
  {
    hide VersionOk, Grows, RunOk, ProjectOk, IterationOk;
    QuietUntouched(db, ro, d, r);
  }

  /* ---- Client calls ---- */

  lemma WriteFileUntouched(db: Db, ro: FileSet, p: Id, content: string, base: Option<Id>, now: Time, r: Id)
    requires Inv(db, ro) && r < |db.runs| && db.runs[r].status.Active()
    requires WriteFile(db, p, content, base, now).Ok?
    ensures Untouched(db, WriteFile(db, p, content, base, now).value.0, r)
  {
    WriteFileKeeps(db, ro, p, content, base, now);
    var d := WriteFile(db, p, content, base, now).value.0;
    assert ActiveIn(db, r, db.runs[r].project);
    QuietUntouched(db, ro, d, r);
  }

  lemma RestoreUntouched(db: Db, ro: FileSet, p: Id, v: Id, now: Time, r: Id)
    requires Inv(db, ro) && r < |db.runs| && db.runs[r].status.Active()
    requires RestoreVersion(db, p, v, now).Ok?
    ensures Untouched(db, RestoreVersion(db, p, v, now).value.0, r)
  {
    hide VersionOk, Grows, RunOk;
    RestoreKeeps(db, ro, p, v, now);
    var d := RestoreVersion(db, p, v, now).value.0;
    assert ActiveIn(db, r, db.runs[r].project);
    QuietUntouched(db, ro, d, r);
  }

  lemma CreateProjectUntouched(db: Db, ro: FileSet, n: nat, now: Time, r: Id)
    requires Inv(db, ro) && r < |db.runs| && CreateProject(db, n, now).Ok?
    ensures Untouched(db, CreateProject(db, n, now).value.0, r)
  {
    hide Inv, Grows, Untouched;
    CreateProjectKeeps(db, ro, n, now);
    SameVersionsUntouched(db, ro, CreateProject(db, n, now).value.0, r);
  }

  lemma CreateRunUntouched(db: Db, ro: FileSet, p: Id, n: nat, base: Option<Id>, canStart: bool, now: Time, r: Id)
    requires Inv(db, ro) && r < |db.runs| && CreateRun(db, p, n, base, canStart, now).Ok?
    ensures Untouched(db, CreateRun(db, p, n, base, canStart, now).value.0, r)
  {
    hide Inv, NewRun, Grows, Untouched;
    CreateRunKeeps(db, ro, p, n, base, canStart, now);
    SameVersionsUntouched(db, ro, CreateRun(db, p, n, base, canStart, now).value.0, r);
  }

  lemma RetryUntouched(db: Db, ro: FileSet, k: Id, now: Time, r: Id)
    requires Inv(db, ro) && r < |db.runs| && db.runs[r].status.Active() && RetryRun(db, k, now).Ok?
    ensures Untouched(db, RetryRun(db, k, now).value.0, r) && k != r
  {
    hide Inv, RetryRun, RetriedRun, Grows;
    RetryRunKeeps(db, ro, k, now);
    SameVersionsUntouched(db, ro, RetryRun(db, k, now).value.0, r);
  }

  lemma ReadUntouched(db: Db, ro: FileSet, p: Id, now: Time, r: Id)
    requires Inv(db, ro) && r < |db.runs| && GetProject(db, p, now).Ok?
    ensures Untouched(db, GetProject(db, p, now).value.0, r)
  {
    hide Inv, LoadSnapshot, Recover, Grows, Untouched;
    GetProjectKeeps(db, ro, p, now);
    SameVersionsUntouched(db, ro, GetProject(db, p, now).value.0, r);
  }

  lemma CompileResultUntouched(db: Db, ro: FileSet, k: Id, sequence: nat, ref: string, known: bool, now: Time, r: Id)
    requires Inv(db, ro) && r < |db.runs| && CompileResult(db, k, sequence, ref, known, now).Ok?
    ensures Untouched(db, CompileResult(db, k, sequence, ref, known, now).value, r)
  {
    hide Inv, RecordArtifact, Grows, ArtifactRow, Untouched;
    var d := CompileResult(db, k, sequence, ref, known, now).value;
    if !known {
      RecordArtifactKeeps(db, ro, k, AttemptWithSequence(db.runs[k].attempts, sequence).value, Qa, ref, now);
    } else {
      GrowsReflexive(db);
    }
    SameVersionsUntouched(db, ro, d, r);
  }

  lemma ClientCallUntouched(db: Db, ro: FileSet, c: ClientCall, now: Time, r: Id)
    requires Inv(db, ro) && r < |db.runs| && db.runs[r].status.Active() && Serve(db, c, now).Ok?
    ensures Untouched(db, Serve(db, c, now).value, r) && (c.DoRetry? ==> c.r != r)
  {
    hide GetProject, Inv, WriteFile, CompileResult, RetryRun;
    match c
    case DoCreateProject(n) => CreateProjectUntouched(db, ro, n, now, r);
    case DoCreateRun(p, n, base, canStart) => CreateRunUntouched(db, ro, p, n, base, canStart, now, r);
    case DoRetry(k) => RetryUntouched(db, ro, k, now, r);
    case DoWriteFile(p, content, base) => WriteFileUntouched(db, ro, p, content, base, now, r);
    case DoRestore(p, v) => RestoreUntouched(db, ro, p, v, now, r);
    case DoRead(p) => ReadUntouched(db, ro, p, now, r);
    case DoCompileResult(k, sequence, ref, known) => CompileResultUntouched(db, ro, k, sequence, ref, known, now, r);
  }

  lemma ClientCallUndisturbed(db: Db, ro: FileSet, c: ClientCall, now: Time, r: Id)
    requires Inv(db, ro) && r < |db.runs| && db.runs[r].status.Active() && Serve(db, c, now).Ok?
    ensures Undisturbed(db, Serve(db, c, now).value, r)
  {
    hide Serve, Inv, Grows, Untouched, Respected;
    ClientCallKeeps(db, ro, c, now);
    ClientCallUntouched(db, ro, c, now, r);
    ClientCallRespects(db, ro, c, now, r);
  }

  /** Of all client calls, only a compile result writes to the row of an active run. */
  lemma ClientCallRespects(db: Db, ro: FileSet, c: ClientCall, now: Time, r: Id)
    requires Inv(db, ro) && r < |db.runs| && db.runs[r].status.Active() && Serve(db, c, now).Ok?
    ensures Respected(db, Serve(db, c, now).value, r)
  {
    hide LoadSnapshot, Recover, Inv;
    match c
    case DoCreateProject(n) => SameRowRespects(db, CreateProject(db, n, now).value.0, r);
    case DoCreateRun(p, n, base, canStart) =>
      CreateRunKeeps(db, ro, p, n, base, canStart, now);
      SameRowRespects(db, CreateRun(db, p, n, base, canStart, now).value.0, r);
    case DoRetry(k) =>
      RetryRunKeeps(db, ro, k, now);
      SameRowRespects(db, RetryRun(db, k, now).value.0, r);
    case DoWriteFile(p, content, base) =>
      WriteFileKeeps(db, ro, p, content, base, now);
      SameRowRespects(db, WriteFile(db, p, content, base, now).value.0, r);
    case DoRestore(p, v) =>
      RestoreKeeps(db, ro, p, v, now);
      SameRowRespects(db, RestoreVersion(db, p, v, now).value.0, r);
    case DoRead(p) =>
      GetProjectKeeps(db, ro, p, now);
      SameRowRespects(db, GetProject(db, p, now).value.0, r);
    case DoCompileResult(k, sequence, ref, known) => CompileResultRespects(db, ro, k, sequence, ref, known, now, r);
  }

  lemma SameRowRespects(db: Db, d: Db, r: Id)
    requires r < |db.runs| <= |d.runs| && d.runs[r] == db.runs[r]
    ensures Respected(db, d, r)
  {
  }

  lemma CompileResultRespects(db: Db, ro: FileSet, k: Id, sequence: nat, ref: string, known: bool, now: Time, r: Id)
    requires Inv(db, ro) && r < |db.runs| && CompileResult(db, k, sequence, ref, known, now).Ok?
    ensures Respected(db, CompileResult(db, k, sequence, ref, known, now).value, r)
  {
    hide Inv, RecordArtifact;
    if !known {
      var a := AttemptWithSequence(db.runs[k].attempts, sequence).value;
      NewResultRespects(db, ro, k, a, ref, now, r);
    }
  }

  lemma NewResultRespects(db: Db, ro: FileSet, k: Id, a: Id, ref: string, now: Time, r: Id)
    requires Inv(db, ro) && r < |db.runs| && k < |db.runs| && a < |db.runs[k].attempts|
    ensures var res := RecordArtifact(db, k, a, Qa, ref, now); res.Ok? && Respected(db, res.value, r)
  {
    hide Inv, RecordArtifact, Grows, ArtifactRow;
    RecordArtifactKeeps(db, ro, k, a, Qa, ref, now);
    ArtifactKeepsDone(db.runs[k], a, Qa, ref, now);
  }

  /* ---- Agents ---- */

  lemma EventUntouched(db: Db, ro: FileSet, k: Id, kind: EventKind, now: Time, r: Id)
    requires Inv(db, ro) && k < |db.runs| && r < |db.runs|
    ensures AppendEvent(db, k, kind, now).Ok? && Untouched(db, AppendEvent(db, k, kind, now).value, r)
  {
    hide Inv, AppendEvent, EventRow, Grows, Untouched;
    AppendEventKeeps(db, ro, k, kind, now);
    SameVersionsUntouched(db, ro, AppendEvent(db, k, kind, now).value, r);
  }

  lemma RecordUntouched(db: Db, ro: FileSet, k: Id, a: Id, stage: Stage, ref: string, now: Time, r: Id)
    requires Inv(db, ro) && k < |db.runs| && a < |db.runs[k].attempts| && r < |db.runs|
    ensures var res := RecordArtifact(db, k, a, stage, ref, now); res.Ok? && Untouched(db, res.value, r)
  {
    hide Inv, RecordArtifact, Grows, ArtifactRow, Untouched;
    RecordArtifactKeeps(db, ro, k, a, stage, ref, now);
    SameVersionsUntouched(db, ro, RecordArtifact(db, k, a, stage, ref, now).value, r);
  }

  lemma BeginUntouched(db: Db, ro: FileSet, k: Id, now: Time, r: Id)
    requires Inv(db, ro) && k < |db.runs| && db.runs[k].status.Active() && r < |db.runs|
    ensures var res := BeginAttempt(db, k, |db.runs[k].attempts| - 1, now); res.Ok? && Untouched(db, res.value, r)
  {
    hide VersionOk, BeginAttempt, Grows, Untouched;
    BeginAttemptKeeps(db, ro, k, now);
    SameVersionsUntouched(db, ro, BeginAttempt(db, k, |db.runs[k].attempts| - 1, now).value, r);
  }

  lemma FailRunUntouched(db: Db, ro: FileSet, k: Id, now: Time, r: Id)
    requires Inv(db, ro) && k < |db.runs| && r < |db.runs|
    ensures FailRun(db, k, now).Ok? && Untouched(db, FailRun(db, k, now).value, r)
  {
    hide Inv, FailRun, Grows, Untouched;
    FailRunKeeps(db, ro, k, now);
    SameVersionsUntouched(db, ro, FailRun(db, k, now).value, r);
  }

  /** Ending a version made for another run. */
  lemma FailDraftUntouched(db: Db, ro: FileSet, v: Id, owner: Option<(Id, Id)>, now: Time, r: Id)
    requires Inv(db, ro) && v < |db.versions| && OwnerOk(db, owner) && r < |db.runs| && !MadeFor(db, v, r)
    ensures FailDraft(db, v, owner, now).Ok? && Untouched(db, FailDraft(db, v, owner, now).value.0, r)
  {
    hide Inv, FailDraft, Grows;
    FailDraftKeeps(db, ro, v, owner, now);
    QuietUntouched(db, ro, FailDraft(db, v, owner, now).value.0, r);
  }

  /** Two active runs are of different projects. */
  lemma ProjectsDiffer(db: Db, ro: FileSet, r: Id, k: Id)
    requires Inv(db, ro) && r < |db.runs| && k < |db.runs| && r != k
    requires db.runs[r].status.Active() && db.runs[k].status.Active()
    ensures db.runs[r].project != db.runs[k].project
  {
    if db.runs[r].project == db.runs[k].project {
      assert ActiveIn(db, r, db.runs[r].project) && ActiveIn(db, k, db.runs[r].project);
    }
  }

  /** The project of a version made for a run is the run's. */
  lemma MadeForProject(db: Db, ro: FileSet, v: Id, r: Id)
    requires Inv(db, ro) && MadeFor(db, v, r)
    ensures r < |db.runs| && db.versions[v].project == db.runs[r].project
  {
    hide AppPasses, RunOk, ProjectOk;
    assert VersionOk(db, ro, v) && IterationOk(db, db.versions[v].iteration);
  }

  lemma PromoteUntouched(db: Db, ro: FileSet, v: Id, k: Id, a: Id, now: Time, r: Id)
    requires Inv(db, ro) && MadeFor(db, v, k) && OwnerOk(db, Some((k, a))) && AppPasses(db.versions[v].files)
    requires r < |db.runs| && r != k && db.runs[r].status.Active()
    ensures var res := Promote(db, v, Some((k, a)), now); res.Ok? ==> Untouched(db, res.value.0, r)
  {
    hide AppPasses, Promote, Grows, RunOk;
    PromoteKeeps(db, ro, v, Some((k, a)), now);
    ProjectsDiffer(db, ro, r, k);
    MadeForProject(db, ro, v, k);
    GrowsReflexive(db);
    if Promote(db, v, Some((k, a)), now).Ok? {
      QuietUntouched(db, ro, Promote(db, v, Some((k, a)), now).value.0, r);
    }
  }

  lemma DraftUntouched(db: Db, ro: FileSet, k: Id, i: Id, files: seq<Snapshot>, r: Id)
    requires Inv(db, ro) && k < |db.runs| && i < |db.iterations| && db.iterations[i].run == Some(k)
    requires CreateDraft(db, db.runs[k].project, i, files).Ok? && r < |db.runs| && r != k
    ensures Untouched(db, CreateDraft(db, db.runs[k].project, i, files).value.0, r)
  {
    hide Inv;
    var d := CreateDraft(db, db.runs[k].project, i, files).value.0;
    assert Grows(db, d);
    assert !MadeFor(d, |db.versions|, r);
    QuietUntouched(db, ro, d, r);
  }

  /** If the action's store call takes effect, what belongs to run `r` is untouched. */
  ghost predicate LeavesAlone(s: System, a: Agent, action: Action, now: Time, r: Id) {
    CallOf(s, a, action).Some? ==>
      var res := Perform(s.db, CallOf(s, a, action).value, now);
      res.Ok? ==> Untouched(s.db, res.value, r)
  }

  lemma EmitLeaves(s: System, a: Agent, kind: EventKind, now: Time, r: Id)
    requires SystemOk(s) && AgentOk(s.db, a) && r < |s.db.runs|
    ensures LeavesAlone(s, a, Emit(kind), now, r) && LeavesAlone(s, a, LastWords(kind), now, r)
  {
    hide Inv, AppendEvent;
    EventUntouched(s.db, ReadOnly(s.scaffold), a.run, kind, now, r);
  }

  lemma RecordLeaves(s: System, a: Agent, stage: Stage, ref: string, now: Time, r: Id)
    requires SystemOk(s) && AgentOk(s.db, a) && a.Working? && r < |s.db.runs|
    ensures LeavesAlone(s, a, Record(stage, ref), now, r)
  {
    hide Inv, AppendEvent;
    RecordUntouched(s.db, ReadOnly(s.scaffold), a.run, a.attempt, stage, ref, now, r);
  }

  lemma BeginLeaves(s: System, a: Agent, now: Time, r: Id)
    requires SystemOk(s) && AgentOk(s.db, a) && a.Working? && r < |s.db.runs|
    ensures LeavesAlone(s, a, Begin, now, r)
  {
    hide VersionOk, AppendEvent;
    BeginUntouched(s.db, ReadOnly(s.scaffold), a.run, now, r);
  }

  lemma AbandonLeaves(s: System, a: Agent, now: Time, r: Id)
    requires SystemOk(s) && AgentOk(s.db, a) && r < |s.db.runs|
    ensures LeavesAlone(s, a, Abandon, now, r)
  {
    hide VersionOk, AppendEvent;
    FailRunUntouched(s.db, ReadOnly(s.scaffold), a.run, now, r);
  }

  lemma WorkUntouched(s: System, a: Agent, action: Action, now: Time, r: Id)
    requires SystemOk(s) && AgentOk(s.db, a) && Enabled(s, a, action) && r < |s.db.runs|
    requires action.Emit? || action.LastWords? || action.Record? || action.Begin? || action.Abandon?
    ensures LeavesAlone(s, a, action, now, r)
  {
    hide LeavesAlone, SystemOk;
    match action
    case Emit(kind) => EmitLeaves(s, a, kind, now, r);
    case LastWords(kind) => EmitLeaves(s, a, kind, now, r);
    case Record(stage, ref) => RecordLeaves(s, a, stage, ref, now, r);
    case Begin => BeginLeaves(s, a, now, r);
    case Abandon => AbandonLeaves(s, a, now, r);
  }

  lemma SupersedeLeaves(s: System, a: Agent, v: Id, now: Time, r: Id)
    requires SystemOk(s) && AgentOk(s.db, a) && Enabled(s, a, Supersede(v))
    requires r < |s.db.runs| && r != a.run && s.db.runs[r].status.Active()
    ensures LeavesAlone(s, a, Supersede(v), now, r)
  {
    hide Inv;
    FailDraftUntouched(s.db, ReadOnly(s.scaffold), v, None, now, r);
  }

  lemma RejectLeaves(s: System, a: Agent, now: Time, r: Id)
    requires SystemOk(s) && AgentOk(s.db, a) && Enabled(s, a, Reject)
    requires r < |s.db.runs| && r != a.run && s.db.runs[r].status.Active()
    ensures LeavesAlone(s, a, Reject, now, r)
  {
    hide Inv;
    FailDraftUntouched(s.db, ReadOnly(s.scaffold), a.draft.value.version, Some((a.run, a.attempt)), now, r);
  }

  lemma AcceptLeaves(s: System, a: Agent, now: Time, r: Id)
    requires SystemOk(s) && AgentOk(s.db, a) && Enabled(s, a, Accept)
    requires r < |s.db.runs| && r != a.run && s.db.runs[r].status.Active()
    ensures LeavesAlone(s, a, Accept, now, r)
  {
    hide Inv;
    PromoteUntouched(s.db, ReadOnly(s.scaffold), a.draft.value.version, a.run, a.attempt, now, r);
  }

  lemma VersionsUntouched(s: System, a: Agent, action: Action, now: Time, r: Id)
    requires SystemOk(s) && AgentOk(s.db, a) && Enabled(s, a, action)
    requires action.Supersede? || action.Reject? || action.Accept? || action.Write?
    requires r < |s.db.runs| && r != a.run && s.db.runs[r].status.Active()
    ensures LeavesAlone(s, a, action, now, r)
  {
    hide LeavesAlone, SystemOk;
    match action
    case Supersede(v) => SupersedeLeaves(s, a, v, now, r);
    case Reject => RejectLeaves(s, a, now, r);
    case Accept => AcceptLeaves(s, a, now, r);
    case Write(content) => WriteLeaves(s, a, content, now, r);
  }

  lemma WriteLeaves(s: System, a: Agent, content: string, now: Time, r: Id)
    requires SystemOk(s) && AgentOk(s.db, a) && a.Working? && r < |s.db.runs| && r != a.run
    ensures LeavesAlone(s, a, Write(content), now, r)
  {
    hide Inv, AppendEvent;
    if CreateDraft(s.db, s.db.runs[a.run].project, a.iteration, BuildFiles(s.scaffold, content)).Ok? {
      DraftUntouched(s.db, ReadOnly(s.scaffold), a.run, a.iteration, BuildFiles(s.scaffold, content), r);
    }
  }

  /** Another agent's event may disrupt the run it was started for; its other calls leave
      other runs alone. */
  ghost predicate ActRespects(s: System, a: Agent, action: Action, now: Time, r: Id) {
    CallOf(s, a, action).Some? ==>
      var res := Perform(s.db, CallOf(s, a, action).value, now);
      res.Ok? ==> Respected(s.db, res.value, r)
  }

  lemma EventRespected(db: Db, ro: FileSet, k: Id, kind: EventKind, now: Time, r: Id)
    requires Inv(db, ro) && k < |db.runs| && r < |db.runs|
    ensures var res := Perform(db, DoEvent(k, kind), now); res.Ok? ==> Respected(db, res.value, r)
  {
    hide VersionOk, AppendEvent;
    AppendEventKeeps(db, ro, k, kind, now);
    EventKeepsDone(db.runs[k], kind, now);
    if r != k {
      RunWriteRespects(db, AppendEvent(db, k, kind, now).value, k, r);
    }
  }

  lemma CallRespects(s: System, a: Agent, action: Action, call: AgentCall, now: Time, r: Id)
    requires CallOf(s, a, action) == Some(call)
    requires var res := Perform(s.db, call, now); res.Ok? ==> Respected(s.db, res.value, r)
    ensures ActRespects(s, a, action, now, r)
  {
    hide Perform, CallOf, Respected;
  }

  lemma EmitRespects(s: System, a: Agent, kind: EventKind, now: Time, r: Id)
    requires SystemOk(s) && AgentOk(s.db, a) && r < |s.db.runs|
    ensures ActRespects(s, a, Emit(kind), now, r)
  {
    hide Inv, Perform;
    EventRespected(s.db, ReadOnly(s.scaffold), a.run, kind, now, r);
    CallRespects(s, a, Emit(kind), DoEvent(a.run, kind), now, r);
  }

  lemma LastWordsRespect(s: System, a: Agent, kind: EventKind, now: Time, r: Id)
    requires SystemOk(s) && AgentOk(s.db, a) && r < |s.db.runs|
    ensures ActRespects(s, a, LastWords(kind), now, r)
  {
    hide Inv, Perform;
    EventRespected(s.db, ReadOnly(s.scaffold), a.run, kind, now, r);
    CallRespects(s, a, LastWords(kind), DoEvent(a.run, kind), now, r);
  }

  lemma RunWriteRespects(db: Db, d: Db, k: Id, r: Id)
    requires OnlyRun(db, d, k) && r < |db.runs| && r != k
    ensures Respected(db, d, r)
  {
  }

  lemma EndRespects(db: Db, d: Db, v: Id, owner: Option<(Id, Id)>, versionStatus: VersionStatus, status: Status, now: Time, r: Id)
    requires EndedWith(db, d, v, owner, versionStatus, status, now) && r < |db.runs|
    requires owner.Some? ==> owner.value.0 != r
    ensures Respected(db, d, r)
  {
    if owner.Some? {
      RunWriteRespects(db, d, owner.value.0, r);
    }
  }

  lemma FailDraftRespects(db: Db, ro: FileSet, v: Id, owner: Option<(Id, Id)>, now: Time, r: Id)
    requires Inv(db, ro) && v < |db.versions| && OwnerOk(db, owner) && r < |db.runs|
    requires owner.Some? ==> owner.value.0 != r
    ensures FailDraft(db, v, owner, now).Ok? && Respected(db, FailDraft(db, v, owner, now).value.0, r)
  {
    hide Inv, FailDraft, EndedWith, Grows;
    FailDraftKeeps(db, ro, v, owner, now);
    if db.versions[v].status == DraftVersion {
      EndRespects(db, FailDraft(db, v, owner, now).value.0, v, owner, FailedVersion, Failed, now, r);
    }
  }

  lemma PromoteRespects(db: Db, ro: FileSet, v: Id, owner: Option<(Id, Id)>, now: Time, r: Id)
    requires Inv(db, ro) && v < |db.versions| && OwnerOk(db, owner) && AppPasses(db.versions[v].files) && r < |db.runs|
    requires owner.Some? && owner.value.0 != r && Promote(db, v, owner, now).Ok?
    ensures Respected(db, Promote(db, v, owner, now).value.0, r)
  {
    hide AppPasses, Inv, Promote, Grows;
    PromoteKeeps(db, ro, v, owner, now);
    if db.versions[v].status == DraftVersion {
      EndRespects(db, Promote(db, v, owner, now).value.0, v, owner, StableVersion, Succeeded, now, r);
    }
  }

  lemma RecordRespected(db: Db, ro: FileSet, k: Id, a: Id, stage: Stage, ref: string, now: Time, r: Id)
    requires Inv(db, ro) && k < |db.runs| && a < |db.runs[k].attempts| && r < |db.runs| && r != k
    ensures var res := Perform(db, DoArtifact(k, a, stage, ref), now); res.Ok? ==> Respected(db, res.value, r)
  {
    hide Inv, AppendEvent;
    RecordArtifactKeeps(db, ro, k, a, stage, ref, now);
    RunWriteRespects(db, RecordArtifact(db, k, a, stage, ref, now).value, k, r);
  }

  lemma BeginRespected(db: Db, ro: FileSet, k: Id, now: Time, r: Id)
    requires Inv(db, ro) && k < |db.runs| && db.runs[k].status.Active() && r < |db.runs| && r != k
    ensures |db.runs[k].attempts| > 0
    ensures var res := Perform(db, DoBegin(k, |db.runs[k].attempts| - 1), now); res.Ok? ==> Respected(db, res.value, r)
  {
    hide VersionOk;
    BeginAttemptKeeps(db, ro, k, now);
    RunWriteRespects(db, BeginAttempt(db, k, |db.runs[k].attempts| - 1, now).value, k, r);
  }

  lemma FailRunRespected(db: Db, ro: FileSet, k: Id, now: Time, r: Id)
    requires Inv(db, ro) && k < |db.runs| && r < |db.runs| && r != k
    ensures var res := Perform(db, DoFailRun(k), now); res.Ok? ==> Respected(db, res.value, r)
  {
    hide Inv, AppendEvent;
    FailRunKeeps(db, ro, k, now);
    RunWriteRespects(db, FailRun(db, k, now).value, k, r);
  }

  lemma WorkRespects(s: System, a: Agent, action: Action, now: Time, r: Id)
    requires SystemOk(s) && AgentOk(s.db, a) && Enabled(s, a, action) && r < |s.db.runs| && r != a.run
    requires action.Record? || action.Begin? || action.Abandon?
    ensures ActRespects(s, a, action, now, r)
  {
    var ro := ReadOnly(s.scaffold);
    match action
    case Record(stage, ref) => RecordRespected(s.db, ro, a.run, a.attempt, stage, ref, now, r);
    case Begin => BeginRespected(s.db, ro, a.run, now, r);
    case Abandon => FailRunRespected(s.db, ro, a.run, now, r);
  }

  lemma SupersedeRespects(s: System, a: Agent, v: Id, now: Time, r: Id)
    requires SystemOk(s) && AgentOk(s.db, a) && Enabled(s, a, Supersede(v)) && r < |s.db.runs|
    ensures ActRespects(s, a, Supersede(v), now, r)
  {
    hide Inv;
    FailDraftRespects(s.db, ReadOnly(s.scaffold), v, None, now, r);
  }

  lemma RejectRespects(s: System, a: Agent, now: Time, r: Id)
    requires SystemOk(s) && AgentOk(s.db, a) && Enabled(s, a, Reject) && r < |s.db.runs| && r != a.run
    ensures ActRespects(s, a, Reject, now, r)
  {
    hide Inv;
    FailDraftRespects(s.db, ReadOnly(s.scaffold), a.draft.value.version, Some((a.run, a.attempt)), now, r);
  }

  lemma AcceptRespects(s: System, a: Agent, now: Time, r: Id)
    requires SystemOk(s) && AgentOk(s.db, a) && Enabled(s, a, Accept) && r < |s.db.runs| && r != a.run
    ensures ActRespects(s, a, Accept, now, r)
  {
    hide Inv;
    if Promote(s.db, a.draft.value.version, Some((a.run, a.attempt)), now).Ok? {
      PromoteRespects(s.db, ReadOnly(s.scaffold), a.draft.value.version, Some((a.run, a.attempt)), now, r);
    }
  }

  lemma ActionRespects(s: System, a: Agent, action: Action, now: Time, r: Id)
    requires SystemOk(s) && AgentOk(s.db, a) && Enabled(s, a, action) && r < |s.db.runs| && (a.Live() ==> r != a.run)
    ensures ActRespects(s, a, action, now, r)
  {
    hide SystemOk;
    match action
    case Emit(kind) => EmitRespects(s, a, kind, now, r);
    case LastWords(kind) => LastWordsRespect(s, a, kind, now, r);
    case Supersede(v) => SupersedeRespects(s, a, v, now, r);
    case Reject => RejectRespects(s, a, now, r);
    case Accept => AcceptRespects(s, a, now, r);
    case Write(content) =>
    case Boot(_, _) =>
    case Leave =>
    case _ => WorkRespects(s, a, action, now, r);
  }

  lemma ActUndisturbed(s: System, a: Agent, action: Action, now: Time, r: Id)
    requires SystemOk(s) && AgentOk(s.db, a) && Enabled(s, a, action) && CallOf(s, a, action).Some?
    requires Perform(s.db, CallOf(s, a, action).value, now).Ok?
    requires r < |s.db.runs| && s.db.runs[r].status.Active() && (a.Live() ==> a.run != r)
    ensures Undisturbed(s.db, Perform(s.db, CallOf(s, a, action).value, now).value, r)
  {
    hide Perform, Inv;
    ActionKeeps(s, a, action, now);
    ActionRespects(s, a, action, now, r);
    if action.Supersede? || action.Reject? || action.Accept? || action.Write? {
      VersionsUntouched(s, a, action, now, r);
    } else {
      WorkUntouched(s, a, action, now, r);
    }
  }

  /** No step of anybody else disturbs a live agent's run, short of a restart. */
  lemma OthersDoNotDisturb(s: System, step: Step, s': System, id: nat)
    requires SystemOk(s) && Next(s, step, s') && id in s.agents && s.agents[id].Live()
    requires !step.Restart? && (step.Act? ==> step.agent != id)
    ensures Undisturbed(s.db, s'.db, s.agents[id].run)
    ensures id in s'.agents && s'.agents[id] == s.agents[id]
  {
    hide Serve, Perform, MarkInterrupted, Undisturbed;
    var r := s.agents[id].run;
    assert AgentOk(s.db, s.agents[id]);
    UndisturbedReflexive(s.db, r);
    match step
    case Handle(c, _, now) =>
      if Serve(s.db, c, now).Ok? {
        ClientCallUndisturbed(s.db, ReadOnly(s.scaffold), c, now, r);
      }
    case Act(j, action, lost, now) =>
      if Effect(s, s.agents[j], action, lost, now).Ok? {
        assert AgentOk(s.db, s.agents[j]);
        ActUndisturbed(s, s.agents[j], action, now, r);
      }
  }
}
