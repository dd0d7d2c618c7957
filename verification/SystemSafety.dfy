/** Safety over whole runs of the system: the invariant holds after any sequence of steps,
    and what has been settled stays settled. */
module SystemSafety {
  import opened Prelude
  import opened Tables
  import opened Workflows
  import opened Operations
  import opened Invariant
  import opened RunSteps
  import opened VersionSteps
  import opened RestartSteps
  import opened ReadSteps
  import opened Reading
  import opened Calls
  import opened Lineage
  import opened Systems
  import EventStreams
  import Gate

  /* ---- One step ---- */

  /** Runs other than `except` keep activity and attempts, and those that have ended their
      status. */
  ghost predicate OthersKept(db: Db, d: Db, except: Option<Id>) {
    |db.runs| <= |d.runs| &&
    forall r :: 0 <= r < |db.runs| && except != Some(r) ==>
      d.runs[r].status.Active() == db.runs[r].status.Active() && |d.runs[r].attempts| == |db.runs[r].attempts| &&
      (!db.runs[r].status.Active() ==> d.runs[r].status == db.runs[r].status)
  }

  /** What a client call may do: it keeps the invariant and leaves other runs' activity
      alone; the run it starts an agent for is active and was not before. */
  ghost predicate Served(db: Db, ro: FileSet, c: ClientCall, d: Db) {
    Inv(d, ro) && Grows(db, d) && OthersKept(db, d, if c.DoRetry? then Some(c.r) else None) &&
    (Launched(db, c).Some? ==>
      var r := Launched(db, c).value;
      r < |d.runs| && d.runs[r].status.Active() && (r < |db.runs| ==> !db.runs[r].status.Active()))
  }

  lemma CreateRunServed(db: Db, ro: FileSet, p: Id, n: nat, base: Option<Id>, canStart: bool, now: Time)
    requires Inv(db, ro) && CreateRun(db, p, n, base, canStart, now).Ok?
    ensures Served(db, ro, DoCreateRun(p, n, base, canStart), CreateRun(db, p, n, base, canStart, now).value.0)
  {
    hide Inv, CreateRun, Grows;
    CreateRunKeeps(db, ro, p, n, base, canStart, now);
  }

  lemma RetryServed(db: Db, ro: FileSet, r: Id, now: Time)
    requires Inv(db, ro) && RetryRun(db, r, now).Ok?
    ensures Served(db, ro, DoRetry(r), RetryRun(db, r, now).value.0)
  {
    hide Inv, RetryRun, Grows;
    RetryRunKeeps(db, ro, r, now);
    RestartServed(db, ro, r, RetryRun(db, r, now).value.0);
  }

  lemma RestartServed(db: Db, ro: FileSet, r: Id, d: Db)
    requires Inv(d, ro) && Grows(db, d) && OnlyRun(db, d, r)
    requires d.runs[r].status.Active() && !db.runs[r].status.Active()
    ensures Served(db, ro, DoRetry(r), d)
  {
    hide Inv, Grows;
  }

  /** A call that keeps the invariant and every run's activity, and starts no agent. */
  lemma QuietServed(db: Db, ro: FileSet, c: ClientCall, d: Db)
    requires Inv(d, ro) && Grows(db, d) && OthersKept(db, d, None) && Launched(db, c).None?
    ensures Served(db, ro, c, d)
  {
    hide Inv, Grows;
  }

  lemma CompileResultServed(db: Db, ro: FileSet, r: Id, sequence: nat, ref: string, known: bool, now: Time)
    requires Inv(db, ro) && CompileResult(db, r, sequence, ref, known, now).Ok?
    ensures Served(db, ro, DoCompileResult(r, sequence, ref, known), CompileResult(db, r, sequence, ref, known, now).value)
  {
    hide Inv, RecordArtifact, Grows;
    var d := CompileResult(db, r, sequence, ref, known, now).value;
    var c := DoCompileResult(r, sequence, ref, known);
    if !known {
      ArtifactServed(db, ro, c, r, AttemptWithSequence(db.runs[r].attempts, sequence).value, ref, now);
    } else {
      GrowsReflexive(db);
      QuietServed(db, ro, c, d);
    }
  }

  lemma ArtifactServed(db: Db, ro: FileSet, c: ClientCall, r: Id, a: Id, ref: string, now: Time)
    requires Inv(db, ro) && r < |db.runs| && a < |db.runs[r].attempts| && Launched(db, c).None?
    ensures RecordArtifact(db, r, a, Qa, ref, now).Ok? && Served(db, ro, c, RecordArtifact(db, r, a, Qa, ref, now).value)
  {
    hide Inv, RecordArtifact, Grows, ArtifactRow;
    RecordArtifactKeeps(db, ro, r, a, Qa, ref, now);
    QuietServed(db, ro, c, RecordArtifact(db, r, a, Qa, ref, now).value);
  }

  lemma CreateProjectServed(db: Db, ro: FileSet, n: nat, now: Time)
    requires Inv(db, ro) && CreateProject(db, n, now).Ok?
    ensures Served(db, ro, DoCreateProject(n), CreateProject(db, n, now).value.0)
  {
    hide Inv, Grows;
    CreateProjectKeeps(db, ro, n, now);
    QuietServed(db, ro, DoCreateProject(n), CreateProject(db, n, now).value.0);
  }

  lemma WriteFileServed(db: Db, ro: FileSet, p: Id, content: string, base: Option<Id>, now: Time)
    requires Inv(db, ro) && WriteFile(db, p, content, base, now).Ok?
    ensures Served(db, ro, DoWriteFile(p, content, base), WriteFile(db, p, content, base, now).value.0)
  {
    hide Inv, Grows, WriteFile;
    WriteFileKeeps(db, ro, p, content, base, now);
    QuietServed(db, ro, DoWriteFile(p, content, base), WriteFile(db, p, content, base, now).value.0);
  }

  lemma RestoreServed(db: Db, ro: FileSet, p: Id, v: Id, now: Time)
    requires Inv(db, ro) && RestoreVersion(db, p, v, now).Ok?
    ensures Served(db, ro, DoRestore(p, v), RestoreVersion(db, p, v, now).value.0)
  {
    hide Inv, Grows, RestoreVersion;
    RestoreKeeps(db, ro, p, v, now);
    QuietServed(db, ro, DoRestore(p, v), RestoreVersion(db, p, v, now).value.0);
  }

  lemma ReadServed(db: Db, ro: FileSet, p: Id, now: Time)
    requires Inv(db, ro) && GetProject(db, p, now).Ok?
    ensures Served(db, ro, DoRead(p), GetProject(db, p, now).value.0)
  {
    hide Inv, Grows, LoadSnapshot, Recover;
    GetProjectKeeps(db, ro, p, now);
    QuietServed(db, ro, DoRead(p), GetProject(db, p, now).value.0);
  }

  lemma ClientCallKeeps(db: Db, ro: FileSet, c: ClientCall, now: Time)
    requires Inv(db, ro) && Serve(db, c, now).Ok?
    ensures Served(db, ro, c, Serve(db, c, now).value)
  {
    hide Inv, Served, CreateProject, CreateRun, RetryRun, WriteFile, RestoreVersion, GetProject, CompileResult;
    match c
    case DoCreateProject(n) => CreateProjectServed(db, ro, n, now);
    case DoCreateRun(p, n, base, canStart) => CreateRunServed(db, ro, p, n, base, canStart, now);
    case DoRetry(r) => RetryServed(db, ro, r, now);
    case DoWriteFile(p, content, base) => WriteFileServed(db, ro, p, content, base, now);
    case DoRestore(p, v) => RestoreServed(db, ro, p, v, now);
    case DoRead(p) => ReadServed(db, ro, p, now);
    case DoCompileResult(r, sequence, ref, known) => CompileResultServed(db, ro, r, sequence, ref, known, now);
  }

  lemma GrowsReflexive(db: Db)
    ensures Grows(db, db)
  {
  }

  lemma OthersStay(db: Db, d: Db, agents: map<nat, Agent>, except: Option<Id>)
    requires Grows(db, d) && OthersKept(db, d, except)
    requires forall id :: id in agents ==> AgentOk(db, agents[id])
    ensures forall id :: id in agents && (agents[id].Live() ==> except != Some(agents[id].run)) ==> AgentOk(d, agents[id])
  {
    forall id | id in agents && (agents[id].Live() ==> except != Some(agents[id].run)) ensures AgentOk(d, agents[id]) {
      AgentStays(db, d, agents[id]);
    }
  }

  /** The agents stay in order around a served call. */
  lemma ServeSettles(s: System, c: ClientCall, d: Db)
    requires SystemOk(s) && Served(s.db, ReadOnly(s.scaffold), c, d)
    requires c.DoRetry? ==> c.r < |s.db.runs| && !s.db.runs[c.r].status.Active()
    ensures SystemOk(System(d, s.agents, s.scaffold))
  {
    hide Inv, Grows;
    var except := if c.DoRetry? then Some(c.r) else None;
    forall id | id in s.agents ensures s.agents[id].Live() ==> except != Some(s.agents[id].run) {
      assert AgentOk(s.db, s.agents[id]);
    }
    OthersStay(s.db, d, s.agents, except);
  }

  /** A newly launched agent is in order, and no live agent had its run before. */
  lemma LaunchSettles(s: System, d: Db, id: nat, r: Id)
    requires SystemOk(s) && SystemOk(System(d, s.agents, s.scaffold)) && id !in s.agents
    requires r < |d.runs| && d.runs[r].status.Active() && (r < |s.db.runs| ==> !s.db.runs[r].status.Active())
    ensures SystemOk(System(d, s.agents[id := Booting(r)], s.scaffold))
  {
    hide Inv;
    forall j | j in s.agents && s.agents[j].Live() ensures s.agents[j].run != r {
      assert AgentOk(s.db, s.agents[j]);
    }
    forall j | j in s.agents ensures AgentOk(d, s.agents[j]) {
      assert System(d, s.agents, s.scaffold).agents[j] == s.agents[j];
    }
  }

  lemma ServeKeeps(s: System, c: ClientCall, launch: Option<nat>, now: Time, s': System)
    requires SystemOk(s) && Next(s, Handle(c, launch, now), s')
    ensures SystemOk(s') && Grows(s.db, s'.db)
  {
    hide GetProject, Acts, Gate.Passes, Inv, CompileResult;
    if Serve(s.db, c, now).Ok? {
      ClientCallKeeps(s.db, ReadOnly(s.scaffold), c, now);
      ServeSettles(s, c, s'.db);
      if launch.Some? && launch.value !in s.agents && Launched(s.db, c).Some? {
        LaunchSettles(s, s'.db, launch.value, Launched(s.db, c).value);
      }
    } else {
      GrowsReflexive(s.db);
    }
  }

  /** What an agent's store call may do: only its own run changes activity, and the agent
      becomes `b`, in order. */
  ghost predicate Acted(s: System, a: Agent, b: Agent, d: Db) {
    Inv(d, ReadOnly(s.scaffold)) && Grows(s.db, d) && AgentOk(d, b) &&
    OthersKept(s.db, d, if a.Live() then Some(a.run) else None)
  }

  lemma EventActed(s: System, a: Agent, kind: EventKind, now: Time)
    requires SystemOk(s) && AgentOk(s.db, a)
    ensures AppendEvent(s.db, a.run, kind, now).Ok? && Acted(s, a, a, AppendEvent(s.db, a.run, kind, now).value)
  {
    hide Inv, AppendEvent, Grows;
    var d := EventStored(s.db, ReadOnly(s.scaffold), a.run, kind, now);
    AgentStays(s.db, d, a);
  }

  /** An event is stored, and the statuses and attempts of all runs stay. */
  lemma EventStored(db: Db, ro: FileSet, r: Id, kind: EventKind, now: Time) returns (d: Db)
    requires Inv(db, ro) && r < |db.runs|
    ensures AppendEvent(db, r, kind, now) == Ok(d) && Inv(d, ro) && Grows(db, d) && |d.runs| == |db.runs|
    ensures forall k :: 0 <= k < |db.runs| ==> d.runs[k].status == db.runs[k].status && d.runs[k].attempts == db.runs[k].attempts
  {
    hide Inv, AppendEvent, Grows;
    AppendEventKeeps(db, ro, r, kind, now);
    d := AppendEvent(db, r, kind, now).value;
  }

  lemma RecordActed(s: System, a: Agent, stage: Stage, ref: string, now: Time)
    requires SystemOk(s) && AgentOk(s.db, a) && a.Working?
    ensures var res := RecordArtifact(s.db, a.run, a.attempt, stage, ref, now); res.Ok? && Acted(s, a, a, res.value)
  {
    hide Inv, RecordArtifact, Grows;
    var d := ArtifactStored(s.db, ReadOnly(s.scaffold), a.run, a.attempt, stage, ref, now);
    AgentStays(s.db, d, a);
  }

  /** An artifact is stored, and the statuses and attempts of all runs stay. */
  lemma ArtifactStored(db: Db, ro: FileSet, r: Id, a: Id, stage: Stage, ref: string, now: Time) returns (d: Db)
    requires Inv(db, ro) && r < |db.runs| && a < |db.runs[r].attempts|
    ensures RecordArtifact(db, r, a, stage, ref, now) == Ok(d) && Inv(d, ro) && Grows(db, d) && |d.runs| == |db.runs|
    ensures forall k :: 0 <= k < |db.runs| ==> d.runs[k].status == db.runs[k].status && d.runs[k].attempts == db.runs[k].attempts
  {
    hide Inv, RecordArtifact, Grows, ArtifactRow;
    RecordArtifactKeeps(db, ro, r, a, stage, ref, now);
    d := RecordArtifact(db, r, a, stage, ref, now).value;
  }

  lemma BeginActed(s: System, a: Agent, now: Time)
    requires SystemOk(s) && AgentOk(s.db, a) && a.Working?
    ensures var res := BeginAttempt(s.db, a.run, a.attempt, now); res.Ok? && Acted(s, a, a, res.value)
  {
    BeginAttemptKeeps(s.db, ReadOnly(s.scaffold), a.run, now);
    AgentStays(s.db, BeginAttempt(s.db, a.run, a.attempt, now).value, a);
  }

  lemma FailRunActed(s: System, a: Agent, now: Time)
    requires SystemOk(s) && AgentOk(s.db, a) && a.Live()
    ensures FailRun(s.db, a.run, now).Ok? && Acted(s, a, Ending(a.run), FailRun(s.db, a.run, now).value)
  {
    hide Inv, FailRun, Grows;
    FailRunKeeps(s.db, ReadOnly(s.scaffold), a.run, now);
  }

  lemma SupersedeActed(s: System, a: Agent, v: Id, now: Time)
    requires SystemOk(s) && AgentOk(s.db, a) && a.Working? && v < |s.db.versions|
    ensures var res := Perform(s.db, DoFailDraft(v, None), now); res.Ok? && Acted(s, a, a, res.value)
  {
    hide Inv, AppendEvent;
    GrowsReflexive(s.db);
    FailDraftKeeps(s.db, ReadOnly(s.scaffold), v, None, now);
    AgentStays(s.db, FailDraft(s.db, v, None, now).value.0, a);
  }

  lemma RejectActed(s: System, a: Agent, now: Time)
    requires SystemOk(s) && AgentOk(s.db, a) && a.Working? && a.draft.Some?
    ensures var res := Perform(s.db, DoFailDraft(a.draft.value.version, Some((a.run, a.attempt))), now);
            res.Ok? && Acted(s, a, Ending(a.run), res.value)
  {
    hide Inv, AppendEvent;
    GrowsReflexive(s.db);
    FailDraftKeeps(s.db, ReadOnly(s.scaffold), a.draft.value.version, Some((a.run, a.attempt)), now);
  }

  lemma AcceptActed(s: System, a: Agent, now: Time)
    requires SystemOk(s) && AgentOk(s.db, a) && a.Working? && a.draft.Some? && Gate.Passes(a.draft.value.content)
    ensures var res := Perform(s.db, DoPromote(a.draft.value.version, Some((a.run, a.attempt))), now);
            res.Ok? ==> Acted(s, a, Ending(a.run), res.value)
  {
    hide Gate.Passes, Inv, AppendEvent;
    GrowsReflexive(s.db);
    PromoteKeeps(s.db, ReadOnly(s.scaffold), a.draft.value.version, Some((a.run, a.attempt)), now);
  }

  lemma WriteActed(s: System, a: Agent, content: string)
    requires SystemOk(s) && AgentOk(s.db, a) && a.Working?
    ensures var res := CreateDraft(s.db, s.db.runs[a.run].project, a.iteration, BuildFiles(s.scaffold, content));
            res.Ok? && Acted(s, a, a.(draft := Some(Draft(|s.db.versions|, content))), res.value.0)
  {
    hide VersionOk;
    var p := s.db.runs[a.run].project;
    var files := BuildFiles(s.scaffold, content);
    BuiltFiles(s.scaffold, content);
    assert IterationOk(s.db, a.iteration);
    CreateDraftKeeps(s.db, ReadOnly(s.scaffold), p, a.iteration, files);
    AgentStays(s.db, CreateDraft(s.db, p, a.iteration, files).value.0, a);
  }

  /** If the action's store call takes effect, it does what an agent's call may do. */
  ghost predicate ActedBy(s: System, a: Agent, action: Action, now: Time) {
    CallOf(s, a, action).Some? ==>
      var res := Perform(s.db, CallOf(s, a, action).value, now);
      res.Ok? ==> Acted(s, a, After(s, a, action, true), res.value)
  }

  lemma EmitActs(s: System, a: Agent, kind: EventKind, now: Time)
    requires SystemOk(s) && AgentOk(s.db, a) && Enabled(s, a, Emit(kind))
    ensures ActedBy(s, a, Emit(kind), now)
  {
    hide Gate.Passes, Inv, AppendEvent, Acted;
    EventActed(s, a, kind, now);
  }

  lemma LastWordsAct(s: System, a: Agent, kind: EventKind, now: Time)
    requires SystemOk(s) && AgentOk(s.db, a) && Enabled(s, a, LastWords(kind))
    ensures ActedBy(s, a, LastWords(kind), now)
  {
    EventActed(s, a, kind, now);
  }

  lemma RecordActs(s: System, a: Agent, stage: Stage, ref: string, now: Time)
    requires SystemOk(s) && AgentOk(s.db, a) && Enabled(s, a, Record(stage, ref))
    ensures ActedBy(s, a, Record(stage, ref), now)
  {
    hide Gate.Passes, Inv, AppendEvent, Acted;
    RecordActed(s, a, stage, ref, now);
  }

  lemma BeginActs(s: System, a: Agent, now: Time)
    requires SystemOk(s) && AgentOk(s.db, a) && Enabled(s, a, Begin)
    ensures ActedBy(s, a, Begin, now)
  {
    hide Gate.Passes, Inv, AppendEvent, Acted;
    BeginActed(s, a, now);
  }

  lemma AbandonActs(s: System, a: Agent, now: Time)
    requires SystemOk(s) && AgentOk(s.db, a) && Enabled(s, a, Abandon)
    ensures ActedBy(s, a, Abandon, now)
  {
    hide Inv;
    FailRunActed(s, a, now);
  }

  lemma SupersedeActs(s: System, a: Agent, v: Id, now: Time)
    requires SystemOk(s) && AgentOk(s.db, a) && Enabled(s, a, Supersede(v))
    ensures ActedBy(s, a, Supersede(v), now)
  {
    hide Perform, Gate.Passes, Acted, SystemOk, AgentOk;
    SupersedeActed(s, a, v, now);
  }

  lemma RejectActs(s: System, a: Agent, now: Time)
    requires SystemOk(s) && AgentOk(s.db, a) && Enabled(s, a, Reject)
    ensures ActedBy(s, a, Reject, now)
  {
    hide Perform, Gate.Passes, Acted, SystemOk, AgentOk;
    RejectActed(s, a, now);
  }

  lemma AcceptActs(s: System, a: Agent, now: Time)
    requires SystemOk(s) && AgentOk(s.db, a) && Enabled(s, a, Accept)
    ensures ActedBy(s, a, Accept, now)
  {
    hide Perform, Gate.Passes, Acted, SystemOk, AgentOk;
    AcceptActed(s, a, now);
  }

  lemma WriteActs(s: System, a: Agent, content: string, now: Time)
    requires SystemOk(s) && AgentOk(s.db, a) && Enabled(s, a, Write(content))
    ensures ActedBy(s, a, Write(content), now)
  {
    hide Inv;
    WriteActed(s, a, content);
  }

  lemma ActionKeeps(s: System, a: Agent, action: Action, now: Time)
    requires SystemOk(s) && AgentOk(s.db, a) && Enabled(s, a, action)
    ensures ActedBy(s, a, action, now)
  {
    hide Perform, Inv, Acted, Enabled;
    match action
    case Emit(kind) => EmitActs(s, a, kind, now);
    case LastWords(kind) => LastWordsAct(s, a, kind, now);
    case Record(stage, ref) => RecordActs(s, a, stage, ref, now);
    case Begin => BeginActs(s, a, now);
    case Abandon => AbandonActs(s, a, now);
    case Supersede(v) => SupersedeActs(s, a, v, now);
    case Reject => RejectActs(s, a, now);
    case Accept => AcceptActs(s, a, now);
    case Write(content) => WriteActs(s, a, content, now);
    case Boot(_, _) =>
    case Leave =>
  }

  /** One agent moves on while the others stay in order. */
  lemma AgentsMove(s: System, id: nat, b: Agent, d: Db)
    requires SystemOk(s) && id in s.agents && Acted(s, s.agents[id], b, d)
    requires b.run == s.agents[id].run && (b.Live() ==> s.agents[id].Live())
    ensures SystemOk(System(d, s.agents[id := b], s.scaffold))
  {
    hide Inv, Grows, AgentOk;
    forall j | j in s.agents && j != id ensures AgentOk(d, s.agents[j]) {
      OtherStays(s, id, b, d, j);
    }
    DistinctRunsMove(s.agents, id, b);
  }

  lemma DistinctRunsMove(agents: map<nat, Agent>, id: nat, b: Agent)
    requires DistinctRuns(agents) && id in agents && b.run == agents[id].run && (b.Live() ==> agents[id].Live())
    ensures DistinctRuns(agents[id := b])
  {
  }

  lemma OtherStays(s: System, id: nat, b: Agent, d: Db, j: nat)
    requires SystemOk(s) && id in s.agents && Acted(s, s.agents[id], b, d) && j in s.agents && j != id
    ensures AgentOk(d, s.agents[j])
  {
    hide Inv, Grows;
    assert AgentOk(s.db, s.agents[j]);
    AgentStays(s.db, d, s.agents[j]);
  }

  lemma IdleActed(s: System, a: Agent, action: Action)
    requires SystemOk(s) && AgentOk(s.db, a) && Enabled(s, a, action)
    ensures Acted(s, a, After(s, a, action, false), s.db)
  {
    hide Gate.Passes, Grows;
    GrowsReflexive(s.db);
    if action.Boot? {
      assert RunOk(s.db.runs[a.run]);
    }
  }

  lemma EffectKeeps(s: System, a: Agent, action: Action, lost: bool, now: Time)
    requires SystemOk(s) && AgentOk(s.db, a) && Enabled(s, a, action)
    ensures var res := Effect(s, a, action, lost, now);
            Acted(s, a, After(s, a, action, res.Ok?), if res.Ok? then res.value else s.db)
  {
    hide Perform, Acted, CallOf, Enabled, SystemOk;
    if Effect(s, a, action, lost, now).Ok? {
      ActionKeeps(s, a, action, now);
    } else {
      IdleActed(s, a, action);
    }
  }

  lemma ActKeeps(s: System, id: nat, action: Action, lost: bool, now: Time, s': System)
    requires SystemOk(s) && Acts(s, id, action, lost, now, s') && s'.scaffold == s.scaffold
    ensures SystemOk(s') && Grows(s.db, s'.db)
  {
    hide Perform, Gate.Passes, Inv, Grows;
    var a := s.agents[id];
    var res := Effect(s, a, action, lost, now);
    EffectKeeps(s, a, action, lost, now);
    if action.Leave? {
      assert !res.Ok?;
    } else {
      AgentsMove(s, id, After(s, a, action, res.Ok?), s'.db);
    }
  }

  /** Every step keeps the invariant and only grows the store. */
  lemma NextKeeps(s: System, step: Step, s': System)
    requires SystemOk(s) && Next(s, step, s')
    ensures SystemOk(s') && Grows(s.db, s'.db)
  {
    hide Serve, Acts, Inv, MarkInterrupted, Grows;
    match step
    case Handle(c, launch, now) => ServeKeeps(s, c, launch, now, s');
    case Act(id, action, lost, now) => ActKeeps(s, id, action, lost, now, s');
    case Restart(reconciled, now) =>
      GrowsReflexive(s.db);
      MarkInterruptedKeeps(s.db, ReadOnly(s.scaffold), now);
  }

  /* ---- Whole runs ---- */

  ghost predicate Initial(s: System) { s.db == EMPTY && s.agents == map[] && ScaffoldOk(s.scaffold) }

  ghost predicate Follows(s: System, s': System) { exists step :: Next(s, step, s') }

  ghost predicate FollowsAt(states: seq<System>, i: nat)
    requires i + 1 < |states|
  {
    Follows(states[i], states[i + 1])
  }

  /** A run of the system: a sequence of states, each by a step from the one before. */
  ghost predicate IsRun(states: seq<System>) {
    states != [] && Initial(states[0]) && forall i :: 0 <= i < |states| - 1 ==> FollowsAt(states, i)
  }

  /** Every state of every run satisfies the invariant. */
  lemma {:induction false} RunsAreSafe(states: seq<System>, i: nat)
    requires IsRun(states) && i < |states|
    ensures SystemOk(states[i]) && states[i].scaffold == states[0].scaffold
  {
    hide Serve, Acts, VersionOk, MarkInterrupted, Grows;
    if i > 0 {
      RunsAreSafe(states, i - 1);
      assert FollowsAt(states, i - 1);
      var step :| Next(states[i - 1], step, states[i]);
      NextKeeps(states[i - 1], step, states[i]);
    }
  }

  /** Any later state of a run has grown from any earlier one. */
  lemma {:induction false} RunsGrow(states: seq<System>, i: nat, j: nat)
    requires IsRun(states) && i <= j < |states|
    ensures Grows(states[i].db, states[j].db)
  {
    hide Next, SystemOk, Grows, Initial;
    if i == j {
      GrowsReflexive(states[i].db);
    } else {
      RunsGrow(states, i, j - 1);
      RunsAreSafe(states, j - 1);
      assert FollowsAt(states, j - 1);
      var step :| Next(states[j - 1], step, states[j]);
      NextKeeps(states[j - 1], step, states[j]);
      GrowsTransitive(states[i].db, states[j - 1].db, states[j].db);
    }
  }

  /** A run that has ended keeps its status in every step but a retry, and a retry shows in
      the number of attempts. */
  lemma EndedRunStays(s: System, step: Step, s': System, r: Id)
    requires SystemOk(s) && Next(s, step, s') && r < |s.db.runs| && !s.db.runs[r].status.Active()
    ensures r < |s'.db.runs| && |s.db.runs[r].attempts| <= |s'.db.runs[r].attempts|
    ensures |s'.db.runs[r].attempts| == |s.db.runs[r].attempts| ==> s'.db.runs[r].status == s.db.runs[r].status
  {
    NextKeeps(s, step, s');
    assert RunKept(s.db.runs[r], s'.db.runs[r]);
    match step
    case Handle(c, _, now) =>
      if Serve(s.db, c, now).Ok? {
        ServedKeepsEnded(s, c, now, r);
      }
    case Act(id, action, lost, now) =>
      assert AgentOk(s.db, s.agents[id]);
      EffectKeeps(s, s.agents[id], action, lost, now);
    case Restart(_, now) => MarkInterruptedKeeps(s.db, ReadOnly(s.scaffold), now);
  }

  lemma ServedKeepsEnded(s: System, c: ClientCall, now: Time, r: Id)
    requires SystemOk(s) && Serve(s.db, c, now).Ok? && r < |s.db.runs| && !s.db.runs[r].status.Active()
    ensures var d := Serve(s.db, c, now).value;
            r < |d.runs| &&
            (|d.runs[r].attempts| == |s.db.runs[r].attempts| ==> d.runs[r].status == s.db.runs[r].status)
  {
    hide GetProject, Gate.Passes, Inv;
    ClientCallKeeps(s.db, ReadOnly(s.scaffold), c, now);
    if c.DoRetry? {
      RetryRunKeeps(s.db, ReadOnly(s.scaffold), c.r, now);
    }
  }

  /** A run that has ended has the same status as long as it has the same attempts. */
  lemma {:induction false} EndedUntilRetried(states: seq<System>, i: nat, j: nat, r: Id)
    requires IsRun(states) && i <= j < |states| && r < |states[i].db.runs| && !states[i].db.runs[r].status.Active()
    ensures r < |states[j].db.runs| && |states[i].db.runs[r].attempts| <= |states[j].db.runs[r].attempts|
    ensures |states[j].db.runs[r].attempts| == |states[i].db.runs[r].attempts| ==>
              states[j].db.runs[r].status == states[i].db.runs[r].status
  {
    hide Next, SystemOk;
    if i < j {
      EndedUntilRetried(states, i, j - 1, r);
      RunsAreSafe(states, j - 1);
      assert FollowsAt(states, j - 1);
      var step :| Next(states[j - 1], step, states[j]);
      NextKeeps(states[j - 1], step, states[j]);
      assert RunKept(states[j - 1].db.runs[r], states[j].db.runs[r]);
      if |states[j].db.runs[r].attempts| == |states[i].db.runs[r].attempts| {
        EndedRunStays(states[j - 1], step, states[j], r);
      }
    }
  }

  /** Whatever happens, a project's stable pointer names a stable version of that project
      whose writable file passes the compile gate. */
  lemma StablePointerIsGated(states: seq<System>, i: nat, p: Id)
    requires IsRun(states) && i < |states|
    requires p < |states[i].db.projects| && states[i].db.projects[p].stable.Some?
    ensures var db := states[i].db;
            var v := db.projects[p].stable.value;
            v < |db.versions| && db.versions[v].project == p && db.versions[v].status == StableVersion &&
            AppOf(db.versions[v].files).Some? && Gate.Passes(AppOf(db.versions[v].files).value)
  {
    hide IsRun, Gate.Passes, RunOk;
    RunsAreSafe(states, i);
    var db := states[i].db;
    assert ProjectOk(db, p);
    assert VersionOk(db, ReadOnly(states[i].scaffold), db.projects[p].stable.value);
  }

  /** Once a version is stable or failed, neither its status nor its files nor the run it
      comes from ever change; its files are fixed from the moment it exists. */
  lemma SettledVersionsNeverChange(states: seq<System>, i: nat, j: nat, v: Id)
    requires IsRun(states) && i <= j < |states| && v < |states[i].db.versions|
    ensures v < |states[j].db.versions| && states[j].db.versions[v].files == states[i].db.versions[v].files
    ensures states[i].db.versions[v].status != DraftVersion ==>
              states[j].db.versions[v].status == states[i].db.versions[v].status
    ensures var a, b := states[i].db, states[j].db;
            Provenance(a.versions, a.iterations, Some(v)).Some? &&
            Provenance(b.versions, b.iterations, Some(v)) == Provenance(a.versions, a.iterations, Some(v))
  {
    hide IsRun, Inv, Provenance, AgentOk;
    RunsAreSafe(states, i);
    RunsGrow(states, i, j);
    assert VersionKept(states[i].db.versions[v], states[j].db.versions[v]);
    ProvenanceKept(states[i].db, ReadOnly(states[i].scaffold), states[j].db, v);
  }

  /** All versions of all projects carry the scaffold's read-only files. */
  lemma ReadOnlyFilesNeverChange(states: seq<System>, i: nat, v: Id)
    requires IsRun(states) && i < |states| && v < |states[i].db.versions|
    ensures states[i].db.versions[v].files - {APP} == ReadOnly(states[0].scaffold)
  {
    hide IsRun, AppPasses, RunOk, AgentOk;
    RunsAreSafe(states, i);
    assert VersionOk(states[i].db, ReadOnly(states[i].scaffold), v);
  }

  /** A project has at most one active run; a run's attempts are numbered 1 to n and only
      attempt n may be active; its events are numbered 1 to m. */
  lemma RunsAndAttempts(states: seq<System>, i: nat, r: Id)
    requires IsRun(states) && i < |states| && r < |states[i].db.runs|
    ensures var db := states[i].db;
            var run := db.runs[r];
            (run.status.Active() ==>
              forall r' :: 0 <= r' < |db.runs| && db.runs[r'].status.Active() && db.runs[r'].project == run.project ==> r' == r) &&
            run.attempts != [] &&
            (forall k :: 0 <= k < |run.attempts| ==>
              run.attempts[k].sequence == k + 1 &&
              (run.attempts[k].status.Active() ==> k == |run.attempts| - 1 && run.status.Active())) &&
            forall k :: 0 <= k < |run.log| ==> run.log[k].seq_ == k + 1
  {
    hide IsRun, VersionOk;
    RunsAreSafe(states, i);
    var db := states[i].db;
    assert RunOk(db.runs[r]);
    forall r' | 0 <= r' < |db.runs| && db.runs[r].status.Active() && db.runs[r'].status.Active() &&
                db.runs[r'].project == db.runs[r].project
      ensures r' == r
    {
      assert ActiveIn(db, r, db.runs[r].project) && ActiveIn(db, r', db.runs[r].project);
    }
  }

  /** A run's log may feed an event stream at any time: it is numbered and only ever grows. */
  lemma LogsFeedStreams(states: seq<System>, i: nat, j: nat, r: Id)
    requires IsRun(states) && i <= j < |states| && r < |states[i].db.runs|
    ensures r < |states[j].db.runs|
    ensures var a, b := states[i].db.runs[r], states[j].db.runs[r];
            EventStreams.Numbered(a.log) &&
            forall k: nat :: EventStreams.Enabled(EventStreams.World(a.log, a.status, k, k, [], None),
                                                  EventStreams.Write(b.log, b.status))
  {
    hide IsRun, Gate.Passes;
    RunsAreSafe(states, i);
    RunsAreSafe(states, j);
    RunsGrow(states, i, j);
    assert RunKept(states[i].db.runs[r], states[j].db.runs[r]);
    assert RunOk(states[i].db.runs[r]) && RunOk(states[j].db.runs[r]);
  }

  /** A project's workflow is always the run created last, or none before the first run. */
  lemma WorkflowIsNewestRun(states: seq<System>, i: nat, p: Id)
    requires IsRun(states) && i < |states| && p < |states[i].db.projects|
    ensures p in states[i].db.workflows && IsNewest(states[i].db, p, states[i].db.workflows[p].run)
  {
    hide IsRun, VersionOk, RunOk, AgentOk;
    RunsAreSafe(states, i);
    assert ProjectOk(states[i].db, p);
  }

  /** The state version of a project never goes down. */
  lemma StateVersionNeverDrops(states: seq<System>, i: nat, j: nat, p: Id)
    requires IsRun(states) && i <= j < |states| && p < |states[i].db.projects|
    ensures p in states[i].db.workflows && p in states[j].db.workflows
    ensures 1 <= states[i].db.workflows[p].version <= states[j].db.workflows[p].version
  {
    hide IsRun, VersionOk, RunOk;
    RunsAreSafe(states, i);
    assert ProjectOk(states[i].db, p);
    RunsGrow(states, i, j);
  }

  /** In every reachable state the lineage walk of every version ends at a run of the
      version's project. */
  lemma LineageAlwaysEndsAtARun(states: seq<System>, i: nat, v: Id)
    requires IsRun(states) && i < |states| && v < |states[i].db.versions|
    ensures var db := states[i].db;
            var r := Provenance(db.versions, db.iterations, Some(v));
            r.Some? && r.value < |db.runs| && db.runs[r.value].project == db.versions[v].project
  {
    hide IsRun, Inv, Nearest, AgentOk;
    RunsAreSafe(states, i);
    var n, r := LineageFindsRun(states[i].db, ReadOnly(states[i].scaffold), v);
  }
}
