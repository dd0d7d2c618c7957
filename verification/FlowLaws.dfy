/** How single steps move the pointers of a project: the stable version, the workflow and
    its state version. */
module FlowLaws {
  import opened Prelude
  import opened Tables
  import opened Workflows
  import opened Operations
  import opened Invariant
  import opened RunSteps
  import opened VersionSteps
  import opened ReadSteps
  import opened Reading
  import opened ReadingLaws
  import opened Lineage
  import opened Calls
  import opened Systems
  import opened SystemSafety
  import Gate

  /* ---- The stable version ---- */

  ghost predicate KeepsStable(db: Db, d: Db) {
    |db.projects| <= |d.projects| &&
    forall p :: 0 <= p < |db.projects| ==> d.projects[p].stable == db.projects[p].stable
  }

  lemma WorkKeepsStable(s: System, a: Agent, action: Action, now: Time)
    requires SystemOk(s) && AgentOk(s.db, a) && Enabled(s, a, action) && CallOf(s, a, action).Some?
    requires action.Emit? || action.LastWords? || action.Record? || action.Begin? || action.Abandon?
    ensures var res := Perform(s.db, CallOf(s, a, action).value, now);
            res.Ok? && KeepsStable(s.db, res.value)
  {
    hide SystemOk, AppendEvent, RecordArtifact, Enabled;
    match action
    case Emit(kind) => EventKeepsStable(s, a.run, kind, now);
    case LastWords(kind) => EventKeepsStable(s, a.run, kind, now);
    case Record(stage, ref) => RecordKeepsStable(s, a.run, a.attempt, stage, ref, now);
    case Begin => BeginKeepsStable(s, a.run, now);
    case Abandon => FailRunKeepsStable(s, a.run, now);
  }

  lemma EventKeepsStable(s: System, r: Id, kind: EventKind, now: Time)
    requires SystemOk(s) && r < |s.db.runs|
    ensures AppendEvent(s.db, r, kind, now).Ok? && KeepsStable(s.db, AppendEvent(s.db, r, kind, now).value)
  {
    hide Inv, AppendEvent, EventRow, Grows;
    AppendEventKeeps(s.db, ReadOnly(s.scaffold), r, kind, now);
  }

  lemma RecordKeepsStable(s: System, r: Id, a: Id, stage: Stage, ref: string, now: Time)
    requires SystemOk(s) && r < |s.db.runs| && a < |s.db.runs[r].attempts|
    ensures var res := RecordArtifact(s.db, r, a, stage, ref, now); res.Ok? && KeepsStable(s.db, res.value)
  {
    hide Inv, RecordArtifact, Grows, ArtifactRow, AgentOk;
    RecordArtifactKeeps(s.db, ReadOnly(s.scaffold), r, a, stage, ref, now);
  }

  lemma BeginKeepsStable(s: System, r: Id, now: Time)
    requires SystemOk(s) && r < |s.db.runs| && s.db.runs[r].status.Active()
    ensures var res := BeginAttempt(s.db, r, |s.db.runs[r].attempts| - 1, now); res.Ok? && KeepsStable(s.db, res.value)
  {
    hide Inv, BeginAttempt, Grows, AgentOk;
    BeginAttemptKeeps(s.db, ReadOnly(s.scaffold), r, now);
  }

  lemma FailRunKeepsStable(s: System, r: Id, now: Time)
    requires SystemOk(s) && r < |s.db.runs|
    ensures FailRun(s.db, r, now).Ok? && KeepsStable(s.db, FailRun(s.db, r, now).value)
  {
    hide Inv, FailRun, Grows, AgentOk;
    FailRunKeeps(s.db, ReadOnly(s.scaffold), r, now);
  }

  lemma FailDraftKeepsStable(s: System, v: Id, owner: Option<(Id, Id)>, now: Time)
    requires SystemOk(s) && v < |s.db.versions| && OwnerOk(s.db, owner)
    ensures FailDraft(s.db, v, owner, now).Ok? && KeepsStable(s.db, FailDraft(s.db, v, owner, now).value.0)
  {
    hide Inv, FailDraft, EndedWith, Grows, AgentOk;
    FailDraftKeeps(s.db, ReadOnly(s.scaffold), v, owner, now);
  }

  /** Of an agent's actions only the acceptance of a draft that passed the gate moves a
      stable version, and it moves it to that draft. */
  lemma AgentMovesStable(s: System, a: Agent, action: Action, now: Time)
    requires SystemOk(s) && AgentOk(s.db, a) && Enabled(s, a, action) && CallOf(s, a, action).Some?
    requires Perform(s.db, CallOf(s, a, action).value, now).Ok?
    ensures KeepsStable(s.db, Perform(s.db, CallOf(s, a, action).value, now).value) ||
            (action.Accept? && AcceptMovesTo(s.db, Perform(s.db, CallOf(s, a, action).value, now).value, a))
  {
    hide Gate.Passes, SystemOk;
    match action
    case Supersede(v) => FailDraftKeepsStable(s, v, None, now);
    case Reject => FailDraftKeepsStable(s, a.draft.value.version, Some((a.run, a.attempt)), now);
    case Accept => AcceptMoves(s, a, now);
    case Write(content) => WriteKeepsStable(s, a, content);
    case _ => WorkKeepsStable(s, a, action, now);
  }

  lemma WriteKeepsStable(s: System, a: Agent, content: string)
    requires SystemOk(s) && AgentOk(s.db, a) && a.Working?
    ensures var res := CreateDraft(s.db, s.db.runs[a.run].project, a.iteration, BuildFiles(s.scaffold, content));
            res.Ok? && KeepsStable(s.db, res.value.0)
  {
    hide Acted, AgentOk, SystemOk;
    WriteActed(s, a, content);
  }

  ghost predicate AcceptMovesTo(db: Db, d: Db, a: Agent) {
    a.Working? && a.draft.Some? && a.run < |db.runs| && Gate.Passes(a.draft.value.content) &&
    MovesOnly(db, d, db.runs[a.run].project, a.draft.value.version)
  }

  /** Only project `p` gets another stable version, and it is `v`. */
  ghost predicate MovesOnly(db: Db, d: Db, p: Id, v: Id) {
    p < |db.projects| <= |d.projects| && d.projects[p].stable == Some(v) &&
    forall q :: 0 <= q < |db.projects| && q != p ==> d.projects[q].stable == db.projects[q].stable
  }

  lemma AcceptMoves(s: System, a: Agent, now: Time)
    requires SystemOk(s) && AgentOk(s.db, a) && Enabled(s, a, Accept)
    ensures var res := Promote(s.db, a.draft.value.version, Some((a.run, a.attempt)), now);
            res.Ok? ==> KeepsStable(s.db, res.value.0) || AcceptMovesTo(s.db, res.value.0, a)
  {
    hide Gate.Passes, Promote, EndedWith, Grows;
    var ro, v := ReadOnly(s.scaffold), a.draft.value.version;
    GrowsReflexive(s.db);
    PromoteKeeps(s.db, ro, v, Some((a.run, a.attempt)), now);
    assert VersionOk(s.db, ro, v) && IterationOk(s.db, a.iteration);
  }

  /** Of the client calls only a manual edit that passes the gate and a restore move one:
      the edit to the version it made, the restore to a version that was stable before. */
  ghost predicate CallMovesTo(db: Db, d: Db, c: ClientCall) {
    match c
    case DoWriteFile(p, content, _) => Gate.Passes(content) && MovesOnly(db, d, p, |db.versions|)
    case DoRestore(p, v) => StableOf(db, v, p) && MovesOnly(db, d, p, v)
    case _ => false
  }

  lemma EditMovesStable(db: Db, ro: FileSet, p: Id, content: string, base: Option<Id>, now: Time)
    requires Inv(db, ro) && WriteFile(db, p, content, base, now).Ok?
    ensures var d := WriteFile(db, p, content, base, now).value.0;
            KeepsStable(db, d) || CallMovesTo(db, d, DoWriteFile(p, content, base))
  {
    hide Gate.Passes, Inv, WriteFile, Grows, EditRecorded;
    WriteFileKeeps(db, ro, p, content, base, now);
  }

  lemma RestoreMovesStable(db: Db, ro: FileSet, p: Id, v: Id, now: Time)
    requires Inv(db, ro) && RestoreVersion(db, p, v, now).Ok?
    ensures CallMovesTo(db, RestoreVersion(db, p, v, now).value.0, DoRestore(p, v))
  {
    hide Gate.Passes, Inv, Grows, RestoreVersion;
    RestoreKeeps(db, ro, p, v, now);
  }

  lemma CreateRunKeepsStable(db: Db, p: Id, n: nat, base: Option<Id>, canStart: bool, now: Time)
    requires CreateRun(db, p, n, base, canStart, now).Ok?
    ensures KeepsStable(db, CreateRun(db, p, n, base, canStart, now).value.0)
  {
  }

  lemma RetryKeepsStable(db: Db, ro: FileSet, r: Id, now: Time)
    requires Inv(db, ro) && RetryRun(db, r, now).Ok?
    ensures KeepsStable(db, RetryRun(db, r, now).value.0)
  {
    hide Inv, RetryRun, RetriedRun, Grows;
    RetryRunKeeps(db, ro, r, now);
  }

  lemma ReadKeepsStable(db: Db, ro: FileSet, p: Id, now: Time)
    requires Inv(db, ro) && GetProject(db, p, now).Ok?
    ensures KeepsStable(db, GetProject(db, p, now).value.0)
  {
    hide Inv, LoadSnapshot, Recover, Grows;
    GetProjectKeeps(db, ro, p, now);
  }

  lemma CompileResultKeepsStable(db: Db, ro: FileSet, r: Id, sequence: nat, ref: string, known: bool, now: Time)
    requires Inv(db, ro) && CompileResult(db, r, sequence, ref, known, now).Ok?
    ensures KeepsStable(db, CompileResult(db, r, sequence, ref, known, now).value)
  {
    hide Inv, RecordArtifact, Grows, ArtifactRow;
    if !known {
      RecordArtifactKeeps(db, ro, r, AttemptWithSequence(db.runs[r].attempts, sequence).value, Qa, ref, now);
    }
  }

  lemma CallMovesStable(db: Db, ro: FileSet, c: ClientCall, now: Time)
    requires Inv(db, ro) && Serve(db, c, now).Ok?
    ensures KeepsStable(db, Serve(db, c, now).value) || CallMovesTo(db, Serve(db, c, now).value, c)
  {
    hide GetProject, Inv, CompileResult, WriteFile, CallMovesTo;
    match c
    case DoCreateProject(n) =>
    case DoCreateRun(p, n, base, canStart) => CreateRunKeepsStable(db, p, n, base, canStart, now);
    case DoRetry(r) => RetryKeepsStable(db, ro, r, now);
    case DoWriteFile(p, content, base) => EditMovesStable(db, ro, p, content, base, now);
    case DoRestore(p, v) => RestoreMovesStable(db, ro, p, v, now);
    case DoRead(p) => ReadKeepsStable(db, ro, p, now);
    case DoCompileResult(r, sequence, ref, known) => CompileResultKeepsStable(db, ro, r, sequence, ref, known, now);
  }

  /** A step moves no stable version, or it is a promotion, a passing edit or a restore. */
  lemma WhatMovesStable(s: System, step: Step, s': System)
    requires SystemOk(s) && Next(s, step, s')
    ensures KeepsStable(s.db, s'.db) ||
            match step
            case Handle(c, _, _) => CallMovesTo(s.db, s'.db, c)
            case Act(id, action, _, _) => action.Accept? && AcceptMovesTo(s.db, s'.db, s.agents[id])
            case Restart(_, _) => false
  {
    hide Serve, Perform, Gate.Passes, MarkInterrupted, CallOf;
    match step
    case Handle(c, _, now) =>
      if Serve(s.db, c, now).Ok? {
        CallMovesStable(s.db, ReadOnly(s.scaffold), c, now);
      }
    case Act(id, action, lost, now) =>
      if Effect(s, s.agents[id], action, lost, now).Ok? {
        assert AgentOk(s.db, s.agents[id]);
        AgentMovesStable(s, s.agents[id], action, now);
      }
    case Restart(_, now) =>
      if MarkInterrupted(s.db, now).Ok? {
        MarkInterruptedProjects(s.db, now);
      }
  }

  lemma {:induction false} CancelActiveProjects(db: Db, k: nat, now: Time)
    requires k <= |db.runs| && CancelActive(db, k, now).Ok?
    ensures CancelActive(db, k, now).value.projects == db.projects
  {
    if k > 0 {
      CancelActiveProjects(db, k - 1, now);
    }
  }

  lemma MarkInterruptedProjects(db: Db, now: Time)
    requires MarkInterrupted(db, now).Ok?
    ensures MarkInterrupted(db, now).value.projects == db.projects
  {
    CancelActiveProjects(db, |db.runs|, now);
  }

  /* ---- The workflow ---- */

  /** The workflow status an agent's store call sets, if it takes effect and sets one. */
  function FlowOfAction(db: Db, a: Agent, action: Action): Option<WorkflowStatus> {
    match action
    case Emit(kind) => FlowOfEvent(kind)
    case LastWords(kind) => FlowOfEvent(kind)
    case Record(_, _) => Some(RunningFlow)
    case Begin => Some(RunningFlow)
    case Abandon => Some(FailedFlow)
    case Accept => if IsOwnDraft(db, a) then Some(CompletedFlow) else None
    case Reject => if IsOwnDraft(db, a) then Some(FailedFlow) else None
    case _ => None
  }

  predicate IsOwnDraft(db: Db, a: Agent) {
    a.Working? && a.draft.Some? && a.draft.value.version < |db.versions| &&
    db.versions[a.draft.value.version].status == DraftVersion
  }

  /** The workflow rows after an agent's lifecycle write: only the row that points at the
      agent's run changes, it keeps its run, and its version rises by exactly one. */
  function FlowsAfter(db: Db, r: Id, flow: Option<WorkflowStatus>, now: Time): map<Id, Workflow>
    requires r < |db.runs|
  {
    if flow.Some? then Bumped(db, r, flow.value, now) else db.workflows
  }

  lemma EventFlows(s: System, r: Id, kind: EventKind, now: Time)
    requires SystemOk(s) && r < |s.db.runs|
    ensures var res := AppendEvent(s.db, r, kind, now);
            res.Ok? && res.value.workflows == FlowsAfter(s.db, r, FlowOfEvent(kind), now)
  {
    hide Inv, AppendEvent, EventRow, Grows;
    AppendEventKeeps(s.db, ReadOnly(s.scaffold), r, kind, now);
  }

  lemma RecordFlows(s: System, r: Id, a: Id, stage: Stage, ref: string, now: Time)
    requires SystemOk(s) && r < |s.db.runs| && a < |s.db.runs[r].attempts|
    ensures var res := RecordArtifact(s.db, r, a, stage, ref, now);
            res.Ok? && res.value.workflows == Bumped(s.db, r, RunningFlow, now)
  {
    hide Inv, RecordArtifact, Grows, ArtifactRow, AgentOk;
    RecordArtifactKeeps(s.db, ReadOnly(s.scaffold), r, a, stage, ref, now);
  }

  lemma BeginFlows(s: System, r: Id, now: Time)
    requires SystemOk(s) && r < |s.db.runs| && s.db.runs[r].status.Active()
    ensures var res := BeginAttempt(s.db, r, |s.db.runs[r].attempts| - 1, now);
            res.Ok? && res.value.workflows == Bumped(s.db, r, RunningFlow, now)
  {
    hide Inv, BeginAttempt, Grows, AgentOk;
    BeginAttemptKeeps(s.db, ReadOnly(s.scaffold), r, now);
  }

  lemma FailRunFlows(s: System, r: Id, now: Time)
    requires SystemOk(s) && r < |s.db.runs|
    ensures FailRun(s.db, r, now).Ok? && FailRun(s.db, r, now).value.workflows == Bumped(s.db, r, FailedFlow, now)
  {
    hide Inv, FailRun, Grows, AgentOk;
    FailRunKeeps(s.db, ReadOnly(s.scaffold), r, now);
  }

  lemma FailDraftFlows(s: System, v: Id, owner: Option<(Id, Id)>, now: Time)
    requires SystemOk(s) && v < |s.db.versions| && OwnerOk(s.db, owner)
    ensures var res := FailDraft(s.db, v, owner, now);
            res.Ok? && res.value.0.workflows ==
                       if s.db.versions[v].status == DraftVersion && owner.Some?
                       then Bumped(s.db, owner.value.0, FailedFlow, now) else s.db.workflows
  {
    hide Inv, FailDraft, Grows, AgentOk;
    FailDraftKeeps(s.db, ReadOnly(s.scaffold), v, owner, now);
  }

  lemma AcceptFlows(s: System, a: Agent, now: Time)
    requires SystemOk(s) && AgentOk(s.db, a) && Enabled(s, a, Accept)
    ensures var res := Promote(s.db, a.draft.value.version, Some((a.run, a.attempt)), now);
            res.Ok? ==> res.value.0.workflows == FlowsAfter(s.db, a.run, FlowOfAction(s.db, a, Accept), now)
  {
    hide Gate.Passes, Inv, Promote, Grows;
    GrowsReflexive(s.db);
    PromoteKeeps(s.db, ReadOnly(s.scaffold), a.draft.value.version, Some((a.run, a.attempt)), now);
  }

  lemma WorkFlows(s: System, a: Agent, action: Action, now: Time)
    requires SystemOk(s) && AgentOk(s.db, a) && Enabled(s, a, action) && CallOf(s, a, action).Some?
    requires action.Emit? || action.LastWords? || action.Record? || action.Begin? || action.Abandon?
    ensures var res := Perform(s.db, CallOf(s, a, action).value, now);
            res.Ok? && res.value.workflows == FlowsAfter(s.db, a.run, FlowOfAction(s.db, a, action), now)
  {
    hide SystemOk, Enabled;
    match action
    case Emit(kind) => EventFlows(s, a.run, kind, now);
    case LastWords(kind) => EventFlows(s, a.run, kind, now);
    case Record(stage, ref) => RecordFlows(s, a.run, a.attempt, stage, ref, now);
    case Begin => BeginFlows(s, a.run, now);
    case Abandon => FailRunFlows(s, a.run, now);
  }

  ghost predicate FlowsBy(s: System, a: Agent, action: Action, now: Time) {
    CallOf(s, a, action).Some? && a.run < |s.db.runs| ==>
      var res := Perform(s.db, CallOf(s, a, action).value, now);
      res.Ok? ==> res.value.workflows == FlowsAfter(s.db, a.run, FlowOfAction(s.db, a, action), now)
  }

  lemma SupersedeFlows(s: System, a: Agent, v: Id, now: Time)
    requires SystemOk(s) && AgentOk(s.db, a) && Enabled(s, a, Supersede(v))
    ensures FlowsBy(s, a, Supersede(v), now)
  {
    hide Gate.Passes, SystemOk, AppendEvent;
    FailDraftFlows(s, v, None, now);
  }

  lemma RejectFlows(s: System, a: Agent, now: Time)
    requires SystemOk(s) && AgentOk(s.db, a) && Enabled(s, a, Reject)
    ensures FlowsBy(s, a, Reject, now)
  {
    hide Gate.Passes, SystemOk, AppendEvent;
    FailDraftFlows(s, a.draft.value.version, Some((a.run, a.attempt)), now);
  }

  lemma WriteFlows(s: System, a: Agent, content: string, now: Time)
    requires SystemOk(s) && AgentOk(s.db, a) && Enabled(s, a, Write(content))
    ensures FlowsBy(s, a, Write(content), now)
  {
    hide Inv;
    WriteActed(s, a, content);
  }

  lemma DraftFlows(s: System, a: Agent, action: Action, now: Time)
    requires SystemOk(s) && AgentOk(s.db, a) && Enabled(s, a, action)
    requires action.Supersede? || action.Reject? || action.Accept? || action.Write?
    ensures FlowsBy(s, a, action, now)
  {
    hide Gate.Passes, SystemOk, AppendEvent;
    match action
    case Supersede(v) => SupersedeFlows(s, a, v, now);
    case Reject => RejectFlows(s, a, now);
    case Accept => AcceptFlows(s, a, now);
    case Write(content) => WriteFlows(s, a, content, now);
  }

  /** Every lifecycle write of an agent whose run the workflow points at sets the status
      that goes with it and raises the state version by exactly one. */
  lemma LifecycleWrites(s: System, id: nat, action: Action, lost: bool, now: Time, s': System)
    requires SystemOk(s) && Acts(s, id, action, lost, now, s')
    ensures var a := s.agents[id];
            a.run < |s.db.runs| &&
            s'.db.workflows == FlowsAfter(s.db, a.run, if Effect(s, a, action, lost, now).Ok? then FlowOfAction(s.db, a, action) else None, now)
  {
    hide Perform, Gate.Passes, Inv;
    var a := s.agents[id];
    assert AgentOk(s.db, a);
    if Effect(s, a, action, lost, now).Ok? {
      if action.Supersede? || action.Reject? || action.Accept? || action.Write? {
        DraftFlows(s, a, action, now);
      } else {
        WorkFlows(s, a, action, now);
      }
    }
  }

  /** An agent of an older run, say one that was retried late, writes to no workflow: not
      the pointer, not the status, not the state version. */
  lemma OlderRunsWriteNoWorkflow(s: System, id: nat, action: Action, lost: bool, now: Time, s': System)
    requires SystemOk(s) && Acts(s, id, action, lost, now, s')
    requires var r := s.agents[id].run;
             exists k :: r < k < |s.db.runs| && s.db.runs[k].project == s.db.runs[r].project
    ensures s'.db.workflows == s.db.workflows
  {
    hide Effect, Enabled, VersionOk;
    var r := s.agents[id].run;
    LifecycleWrites(s, id, action, lost, now, s');
    assert s.db.runs[r].project < |s.db.projects|;
    assert ProjectOk(s.db, s.db.runs[r].project);
  }

  /* ---- Retries ---- */

  /** A retry is served exactly when the run has failed or was interrupted and no run of
      its project is active.  The check for an active run is the index alone: a retry that
      it stops is not refused as a conflict but aborts. */
  lemma RetryOutcome(db: Db, ro: FileSet, r: Id, now: Time)
    requires Inv(db, ro)
    ensures var res := RetryRun(db, r, now);
            var ended := r < |db.runs| && (db.runs[r].status == Failed || db.runs[r].status == Interrupted);
            (res.Ok? <==> ended && !HasActiveRun(db, db.runs[r].project)) &&
            (res == Err(Internal) <==> ended && HasActiveRun(db, db.runs[r].project))
  {
    hide VersionOk;
    RetryRunKeeps(db, ro, r, now);
    if r < |db.runs| && (db.runs[r].status == Failed || db.runs[r].status == Interrupted) {
      InvPointers(db, ro);
      var run := db.runs[r];
      RetriedRunOk(run, now);
      if !BreaksActiveIndex(db, r, RetriedRun(run, now)) {
        RunWriteBump(db, r, RetriedRun(run, now), RunningFlow, now);
      }
    }
  }

  /* ---- Manual edits ---- */

  /** What a passing edit of project `p` leaves behind. */
  ghost predicate Edited(db: Db, d: Db, p: Id, content: string) {
    p < |db.projects| <= |d.projects| && db.projects[p].stable.Some? && db.projects[p].stable.value < |db.versions| &&
    p in db.workflows && p in d.workflows &&
    var before, v := db.projects[p].stable.value, |db.versions|;
    |d.versions| == v + 1 && d.projects[p].stable == Some(v) &&
    AppOf(d.versions[v].files) == Some(content) &&
    d.versions[v].files - {APP} == db.versions[before].files - {APP} &&
    Provenance(d.versions, d.iterations, Some(v)) == Provenance(db.versions, db.iterations, Some(before)) &&
    d.workflows[p].run == db.workflows[p].run && d.workflows[p].status == db.workflows[p].status &&
    d.workflows[p].version == db.workflows[p].version + 1
  }

  /** A passing edit changes the writable file only, keeps the provenance of the version it
      edits, and raises the state version by exactly one; a failing edit is recorded and
      leaves the stable version and the workflow as they are. */
  lemma ManualEdit(db: Db, ro: FileSet, p: Id, content: string, base: Option<Id>, now: Time)
    requires Inv(db, ro) && WriteFile(db, p, content, base, now).Ok?
    ensures var (d, reply) := WriteFile(db, p, content, base, now).value;
            if Gate.Passes(content) then reply.status == 202 && Edited(db, d, p, content)
            else reply == Reply(422, CompileErrors) && d.projects == db.projects && d.workflows == db.workflows &&
                 |d.versions| == |db.versions| + 1 && d.versions[|db.versions|].status == FailedVersion
  {
    hide Gate.Passes, Inv, Grows, Provenance;
    var d := WriteFile(db, p, content, base, now).value.0;
    WriteFileKeeps(db, ro, p, content, base, now);
    if Gate.Passes(content) {
      EditProvenance(db, ro, d, db.projects[p].stable.value);
    }
  }

  /** A version whose iteration has no run and the base `before` has the provenance of it. */
  lemma EditProvenance(db: Db, ro: FileSet, d: Db, before: Id)
    requires Inv(db, ro) && Inv(d, ro) && Grows(db, d) && before < |db.versions| < |d.versions|
    requires BaseOf(d.versions, d.iterations, |db.versions|) == Some(before)
    requires RunOf(d.versions, d.iterations, |db.versions|) == None
    ensures Provenance(d.versions, d.iterations, Some(|db.versions|)) ==
            Provenance(db.versions, db.iterations, Some(before))
  {
    hide *;
    ProvenanceKept(db, ro, d, before);
    var n, r := LineageFindsRun(d, ro, before);
    NearestThroughBase(d.versions, d.iterations, |db.versions|, before, n, r);
    ProvenanceIs(d.versions, d.iterations, |db.versions|, n + 1, r);
  }

  /** States each made from the one before by a passing edit of project `p`. */
  ghost predicate EditChain(dbs: seq<Db>, ro: FileSet, p: Id) {
    dbs != [] && Inv(dbs[0], ro) && p < |dbs[0].projects| && dbs[0].projects[p].stable.Some? &&
    forall k :: 0 <= k < |dbs| - 1 ==> EditStep(dbs[k], dbs[k + 1], p)
  }

  ghost predicate EditStep(db: Db, d: Db, p: Id) {
    exists content, base, now ::
      WriteFile(db, p, content, base, now).Ok? && Gate.Passes(content) && d == WriteFile(db, p, content, base, now).value.0
  }

  /** Along any chain of passing edits, the run that the preview comes from and all files
      but the writable one stay those of the version the chain began with, the workflow
      keeps its run and status, and the state version counts the edits. */
  lemma {:induction false} EditsKeepProvenance(dbs: seq<Db>, ro: FileSet, p: Id, k: nat)
    requires EditChain(dbs, ro, p) && k < |dbs|
    ensures Inv(dbs[k], ro) && p < |dbs[k].projects| && p in dbs[0].workflows && p in dbs[k].workflows
    ensures var a, b := dbs[0], dbs[k];
            b.projects[p].stable.Some? &&
            a.projects[p].stable.value < |a.versions| && b.projects[p].stable.value < |b.versions| &&
            b.versions[b.projects[p].stable.value].files - {APP} == a.versions[a.projects[p].stable.value].files - {APP} &&
            Provenance(b.versions, b.iterations, b.projects[p].stable) ==
            Provenance(a.versions, a.iterations, a.projects[p].stable) &&
            b.workflows[p].run == a.workflows[p].run && b.workflows[p].status == a.workflows[p].status &&
            b.workflows[p].version == a.workflows[p].version + k
  {
    hide Gate.Passes, WriteFile, Provenance, Grows, RunOk;
    if k == 0 {
      assert ProjectOk(dbs[0], p);
    } else {
      EditsKeepProvenance(dbs, ro, p, k - 1);
      assert EditStep(dbs[k - 1], dbs[k - 1 + 1], p);
      var content, base, now :|
        WriteFile(dbs[k - 1], p, content, base, now).Ok? && Gate.Passes(content) &&
        dbs[k] == WriteFile(dbs[k - 1], p, content, base, now).value.0;
      ManualEdit(dbs[k - 1], ro, p, content, base, now);
      WriteFileKeeps(dbs[k - 1], ro, p, content, base, now);
    }
  }

  /* ---- Restores ---- */

  /** A restore leaves the workflow alone, so reading the project afterwards reports a
      preview mismatch exactly when the restored version comes from another run than the
      succeeded one the workflow points at. */
  lemma RestoreThenRead(db: Db, ro: FileSet, p: Id, v: Id, now: Time, later: Time)
    requires Inv(db, ro) && RestoreVersion(db, p, v, now).Ok?
    ensures var d := RestoreVersion(db, p, v, now).value.0;
            p in db.workflows && d.workflows == db.workflows &&
            var res := GetProject(d, p, later);
            res.Ok? &&
            var detail := res.value.1;
            detail.stable == Some(v) && detail.run == db.workflows[p].run &&
            detail.preview == Provenance(db.versions, db.iterations, Some(v)) &&
            (detail.run.Some? && detail.run.value < |db.runs| && db.runs[detail.run.value].status == Succeeded ==>
              (PreviewMismatch in detail.conflicts <==> detail.preview != detail.run))
  {
    hide GetProject, VersionOk, Provenance, Grows, RunOk;
    assert ProjectOk(db, p) by {
      RestoreKeeps(db, ro, p, v, now);
    }
    RestoreKeeps(db, ro, p, v, now);
    var d := RestoreVersion(db, p, v, now).value.0;
    ProvenanceKept(db, ro, d, v);
    GetProjectKeeps(d, ro, p, later);
    ReadReports(d, p, later);
  }

  /** What a read of a project with a workflow reports. */
  lemma ReadReports(db: Db, p: Id, now: Time)
    requires p < |db.projects| && p in db.workflows && GetProject(db, p, now).Ok?
    ensures var detail := GetProject(db, p, now).value.1;
            detail.stable == db.projects[p].stable && detail.run == db.workflows[p].run &&
            detail.preview == Provenance(db.versions, db.iterations, db.projects[p].stable) &&
            (detail.run.Some? && detail.run.value < |db.runs| && db.runs[detail.run.value].status == Succeeded ==>
              (PreviewMismatch in detail.conflicts <==> detail.preview != detail.run))
  {
    hide Recover, Provenance, StageRows, Bump, ConflictsOf;
    var stable := db.projects[p].stable;
    var preview := Provenance(db.versions, db.iterations, stable);
    var run := db.workflows[p].run;
    if run.Some? && run.value < |db.runs| && db.runs[run.value].status == Succeeded {
      MismatchExactly(stable, preview, run.value, db.runs[run.value]);
    }
  }

  lemma {:induction false} StageConflictKinds(run: Run, rows: seq<(Stage, StageRow)>)
    ensures PreviewMismatch !in StageConflict(run, rows)
  {
    if rows != [] {
      StageConflictKinds(run, rows[1..]);
    }
  }

  lemma MismatchExactly(stable: Option<Id>, preview: Option<Id>, r: Id, run: Run)
    ensures PreviewMismatch in ConflictsOf(stable, preview, r, run, StageRows(run)) <==> preview != Some(r)
  {
    StageConflictKinds(run, StageRows(run));
  }
}
