/** The running system: the store, the agents at work on it, and everything that may
    happen, in any order.  An agent is over-approximated: between its start and its last
    write it may do any of its store calls in any order, and any of them may fail. */
module Systems {
  import opened Prelude
  import opened Tables
  import opened Workflows
  import opened Operations
  import opened Invariant
  import opened RunSteps
  import opened VersionSteps
  import opened RestartSteps
  import opened ReadSteps
  import opened Reading
  import opened Calls
  import opened Lineage
  import Gate

  /** The draft an agent wrote last, with the content it stored. */
  datatype Draft = Draft(version: Id, content: string)

  datatype Agent =
    | Booting(run: Id)
    | Working(run: Id, attempt: Id, iteration: Id, draft: Option<Draft>)
    | Ending(run: Id)
  {
    predicate Live() { !Ending? }
  }

  datatype System = System(db: Db, agents: map<nat, Agent>, scaffold: seq<Snapshot>)

  /** The scaffold with the writable file's content replaced (internal/agent/scaffold.go). */
  function BuildFiles(scaffold: seq<Snapshot>, content: string): (files: seq<Snapshot>)
    ensures |files| == |scaffold|
  {
    seq(|scaffold|, i requires 0 <= i < |scaffold| =>
      if scaffold[i].path == APP then Snapshot(APP, File(content, false)) else scaffold[i])
  }

  predicate ScaffoldOk(scaffold: seq<Snapshot>) {
    DistinctPaths(scaffold) && exists i | 0 <= i < |scaffold| :: scaffold[i].path == APP
  }

  function ReadOnly(scaffold: seq<Snapshot>): FileSet { FileSetOf(scaffold) - {APP} }

  /* ---- Steps ---- */

  datatype Action =
    | Boot(attempt: Id, iteration: Id)
    | Emit(kind: EventKind)
    | Record(stage: Stage, ref: string)
    | Begin
    | Write(content: string)
    | Supersede(version: Id)
    | Accept
    | Reject
    | Abandon
    | LastWords(kind: EventKind)
    | Leave

  datatype Step =
    | Handle(call: ClientCall, launch: Option<nat>, now: Time)
    | Act(agent: nat, action: Action, lost: bool, now: Time)
    | Restart(reconciled: bool, now: Time)

  /** The run a successful client call starts an agent for. */
  function Launched(db: Db, c: ClientCall): Option<Id> {
    match c
    case DoCreateRun(_, _, _, canStart) => if canStart then Some(|db.runs|) else None
    case DoRetry(r) => Some(r)
    case _ => None
  }

  /** The store call an action makes, if it makes one. */
  function CallOf(s: System, a: Agent, action: Action): Option<AgentCall> {
    match action
    case Emit(kind) => Some(DoEvent(a.run, kind))
    case Record(stage, ref) => if a.Working? then Some(DoArtifact(a.run, a.attempt, stage, ref)) else None
    case Begin => if a.Working? then Some(DoBegin(a.run, a.attempt)) else None
    case Write(content) =>
      if a.Working? && a.run < |s.db.runs|
      then Some(DoDraft(s.db.runs[a.run].project, a.iteration, BuildFiles(s.scaffold, content))) else None
    case Supersede(v) => Some(DoFailDraft(v, None))
    case Accept =>
      if a.Working? && a.draft.Some? then Some(DoPromote(a.draft.value.version, Some((a.run, a.attempt)))) else None
    case Reject =>
      if a.Working? && a.draft.Some? then Some(DoFailDraft(a.draft.value.version, Some((a.run, a.attempt)))) else None
    case Abandon => Some(DoFailRun(a.run))
    case LastWords(kind) => Some(DoEvent(a.run, kind))
    case _ => None
  }

  /** The outcome of an action's store call; a lost one changes nothing. */
  function Effect(s: System, a: Agent, action: Action, lost: bool, now: Time): Result<Db> {
    var call := CallOf(s, a, action);
    if call.Some? && !lost then Perform(s.db, call.value, now) else Err(Internal)
  }

  /** When an agent may take an action. */
  ghost predicate Enabled(s: System, a: Agent, action: Action) {
    match action
    case Boot(attempt, iteration) =>
      a.Booting? && a.run < |s.db.runs| && s.db.runs[a.run].activeAttempt == Some(attempt) &&
      iteration < |s.db.iterations| && s.db.iterations[iteration].run == Some(a.run)
    case Emit(kind) => a.Working? && !IsTerminal(kind)
    case Record(_, _) => a.Working?
    case Begin => a.Working?
    case Write(_) => a.Working?
    case Supersede(v) =>
      a.Working? && v < |s.db.versions| && s.db.versions[v].iteration == a.iteration &&
      (a.draft.Some? ==> v != a.draft.value.version)
    case Accept => a.Working? && a.draft.Some? && Gate.Passes(a.draft.value.content)
    case Reject => a.Working? && a.draft.Some?
    case Abandon => a.Live()
    case LastWords(_) => a.Ending?
    case Leave => true
  }

  /** The agent after an action; `done` says whether its store call took effect. */
  function After(s: System, a: Agent, action: Action, done: bool): Agent {
    match action
    case Boot(attempt, iteration) => Working(a.run, attempt, iteration, None)
    case Write(content) => if done && a.Working? then a.(draft := Some(Draft(|s.db.versions|, content))) else a
    case Accept => if done then Ending(a.run) else a
    case Reject => Ending(a.run)
    case Abandon => Ending(a.run)
    case _ => a
  }

  /** Agent `id` takes an action. */
  ghost predicate Acts(s: System, id: nat, action: Action, lost: bool, now: Time, s': System) {
    id in s.agents && Enabled(s, s.agents[id], action) &&
    var a := s.agents[id];
    var res := Effect(s, a, action, lost, now);
    s'.db == (if res.Ok? then res.value else s.db) &&
    s'.agents == if action.Leave? then s.agents - {id} else s.agents[id := After(s, a, action, res.Ok?)]
  }

  ghost predicate Next(s: System, step: Step, s': System) {
    s'.scaffold == s.scaffold &&
    match step
    case Handle(c, launch, now) =>
      var res := Serve(s.db, c, now);
      if res.Ok? then
        s'.db == res.value &&
        s'.agents == if launch.Some? && launch.value !in s.agents && Launched(s.db, c).Some?
                     then s.agents[launch.value := Booting(Launched(s.db, c).value)] else s.agents
      else s' == s
    case Act(id, action, lost, now) => Acts(s, id, action, lost, now, s')
    case Restart(reconciled, now) =>
      s'.agents == map[] &&
      s'.db == if reconciled && MarkInterrupted(s.db, now).Ok? then MarkInterrupted(s.db, now).value else s.db
  }

  /* ---- What every reachable system satisfies ---- */

  ghost predicate AgentOk(db: Db, a: Agent) {
    a.run < |db.runs| &&
    (a.Live() ==> db.runs[a.run].status.Active()) &&
    match a
    case Booting(_) => true
    case Ending(_) => true
    case Working(r, attempt, i, draft) =>
      attempt == |db.runs[r].attempts| - 1 &&
      i < |db.iterations| && db.iterations[i].run == Some(r) &&
      (draft.Some? ==>
        var v := draft.value.version;
        v < |db.versions| && db.versions[v].iteration == i && AppOf(db.versions[v].files) == Some(draft.value.content))
  }

  /** No two live agents are at work on the same run. */
  ghost predicate DistinctRuns(agents: map<nat, Agent>) {
    forall i, j :: i in agents && j in agents && i != j && agents[i].Live() && agents[j].Live() ==>
      agents[i].run != agents[j].run
  }

  ghost predicate SystemOk(s: System) {
    ScaffoldOk(s.scaffold) &&
    Inv(s.db, ReadOnly(s.scaffold)) &&
    (forall id :: id in s.agents ==> AgentOk(s.db, s.agents[id])) &&
    DistinctRuns(s.agents)
  }

  /** An agent stays in order while its run stays active with the same attempts. */
  lemma AgentStays(db: Db, d: Db, a: Agent)
    requires AgentOk(db, a) && Grows(db, d)
    requires a.Live() ==> d.runs[a.run].status.Active() && |d.runs[a.run].attempts| == |db.runs[a.run].attempts|
    ensures AgentOk(d, a)
  {
    if a.Working? {
      assert IterationKept(db.iterations[a.iteration], d.iterations[a.iteration]);
      if a.draft.Some? {
        assert VersionKept(db.versions[a.draft.value.version], d.versions[a.draft.value.version]);
      }
    }
  }

  lemma {:induction false} FileSetAt(files: seq<Snapshot>)
    requires DistinctPaths(files)
    ensures forall i :: 0 <= i < |files| ==>
              files[i].path in FileSetOf(files) && FileSetOf(files)[files[i].path] == files[i].file
    ensures forall path :: path in FileSetOf(files) ==> exists i :: 0 <= i < |files| && files[i].path == path
  {
    if files != [] {
      FileSetAt(files[..|files| - 1]);
    }
  }

  /** A snapshot built for some content holds it, and the scaffold's read-only files. */
  lemma BuiltFiles(scaffold: seq<Snapshot>, content: string)
    requires ScaffoldOk(scaffold)
    ensures var files := BuildFiles(scaffold, content);
            DistinctPaths(files) && FileSetOf(files) - {APP} == ReadOnly(scaffold) &&
            AppOf(FileSetOf(files)) == Some(content)
  {
    var files := BuildFiles(scaffold, content);
    SamePaths(scaffold, content);
    FileSetAt(scaffold);
    FileSetAt(files);
    var i :| 0 <= i < |scaffold| && scaffold[i].path == APP;
    assert files[i].path == APP;
    SameButOne(scaffold, files, APP, FileSetOf(scaffold), FileSetOf(files));
  }

  lemma SamePaths(scaffold: seq<Snapshot>, content: string)
    requires DistinctPaths(scaffold)
    ensures var files := BuildFiles(scaffold, content);
            DistinctPaths(files) &&
            forall j :: 0 <= j < |scaffold| ==>
              files[j].path == scaffold[j].path && (scaffold[j].path != APP ==> files[j] == scaffold[j])
  {
    var files := BuildFiles(scaffold, content);
    assert forall j :: 0 <= j < |scaffold| ==> files[j].path == scaffold[j].path;
  }

  /** Lists that agree but for one path have file sets that agree but for it. */
  lemma SameButOne(a: seq<Snapshot>, b: seq<Snapshot>, app: string, x: FileSet, y: FileSet)
    requires |a| == |b| && forall j :: 0 <= j < |a| ==> b[j].path == a[j].path && (a[j].path != app ==> b[j] == a[j])
    requires forall j :: 0 <= j < |a| ==> a[j].path in x && x[a[j].path] == a[j].file
    requires forall j :: 0 <= j < |b| ==> b[j].path in y && y[b[j].path] == b[j].file
    requires forall path :: path in x ==> exists j :: 0 <= j < |a| && a[j].path == path
    requires forall path :: path in y ==> exists j :: 0 <= j < |b| && b[j].path == path
    ensures y - {app} == x - {app}
  {
    forall path | path in y && path != app ensures path in x && x[path] == y[path] {
      var j :| 0 <= j < |b| && b[j].path == path;
      assert a[j].path == path;
    }
    forall path | path in x && path != app ensures path in y {
      var j :| 0 <= j < |a| && a[j].path == path;
      assert b[j].path == path;
    }
  }
}
