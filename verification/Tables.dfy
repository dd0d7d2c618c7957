/** The tables of the store (internal/db/migrations) as values.  A row's id is its
    position in its table; rows are never deleted, so an id is never reused.  What the
    schema keys by run (attempts, stage rows, artifacts, events) is kept in the run's row,
    where an attempt's id is its position among the run's attempts. */
module Tables {
  import opened Prelude

  type Id = nat
  type Time = int  // whole seconds

  /** Status of a run and of an attempt. */
  datatype Status = Queued | Running | Succeeded | Failed | Interrupted {
    predicate Active() { Queued? || Running? }
  }

  datatype VersionStatus = DraftVersion | StableVersion | FailedVersion

  datatype IterationKind = AgentIteration | ManualIteration | RestoreIteration

  datatype Stage = Pm | Architect | Engineer | Qa

  const STAGES := [Pm, Architect, Engineer, Qa]

  /** A stage's place in the order. */
  function Position(s: Stage): (j: nat)
    ensures j < |STAGES| && STAGES[j] == s
  {
    match s case Pm => 0 case Architect => 1 case Engineer => 2 case Qa => 3
  }

  datatype StageStatus = Waiting | InProgress | Done | Broken | Cancelled | Recovering

  datatype WorkflowStatus =
    | DraftFlow | RunningFlow | CompletedFlow | FailedFlow | CancelledFlow | RecoveringFlow

  datatype Attempt = Attempt(sequence: nat, status: Status)

  datatype StageRow = StageRow(
    attempt: Option<Id>, status: StageStatus, startedAt: Option<Time>, finishedAt: Option<Time>,
    updatedAt: Time, errorCode: Option<string>)

  datatype Artifact = Artifact(attempt: Id, stage: Stage, ref: string, createdAt: Time)

  datatype EventKind =
    | RunStarted
    | StageStarted(stage: Stage)
    | StageArtifact(stage: Stage)
    | MessageDelta
    | FileWritten
    | PreviewReady
    | RunFailed(failedStage: Option<Stage>, code: string)
    | RunCompleted

  predicate IsTerminal(kind: EventKind) { kind.RunFailed? || kind.RunCompleted? }

  datatype Event = Event(seq_: nat, kind: EventKind, createdAt: Time)

  datatype Run = Run(
    project: Id, status: Status, base: Option<Id>, activeAttempt: Option<Id>,
    createdAt: Time, updatedAt: Time,
    attempts: seq<Attempt>, stages: map<(nat, Stage), StageRow>, artifacts: seq<Artifact>, log: seq<Event>)

  datatype Project = Project(stable: Option<Id>, updatedAt: Time)

  datatype Iteration = Iteration(
    project: Id, run: Option<Id>, kind: IterationKind, base: Option<Id>, result: Option<Id>)

  datatype File = File(content: string, readonly: bool)

  type FileSet = map<string, File>

  datatype Version = Version(project: Id, iteration: Id, status: VersionStatus, files: FileSet)

  datatype Workflow = Workflow(run: Option<Id>, status: WorkflowStatus, version: nat, updatedAt: Time)

  datatype ConflictCode = NoStablePreview | PreviewMismatch | StageMissing | StageNotSucceeded | StageWithoutArtifact

  datatype Db = Db(
    projects: seq<Project>, runs: seq<Run>, iterations: seq<Iteration>, versions: seq<Version>,
    workflows: map<Id, Workflow>,
    conflicts: map<(Id, Id, ConflictCode), Option<Time>>)  // the time a conflict was resolved

  const EMPTY := Db([], [], [], [], map[], map[])

  datatype Error = NotFound | Conflict | Invalid | Internal

  /** The outcome of a transaction body; an error rolls everything back. */
  datatype Result<+T> = Ok(value: T) | Err(error: Error) {
    predicate IsFailure() { Err? }

    function PropagateFailure<U>(): Result<U>
      requires Err?
    {
      Err(error)
    }

    function Extract(): T
      requires Ok?
    {
      value
    }
  }

  datatype Body = NoBody | ProjectBody(project: Id) | RunBody(run: Id) | AttemptBody(of: Id, attempt: Id)
                | IterationBody(iteration: Id) | CompileErrors

  datatype Reply = Reply(status: nat, body: Body)

  const APP := "/src/App.tsx"

  /** The writable file's content, if the file set has it. */
  function AppOf(files: FileSet): Option<string> {
    if APP in files then Some(files[APP].content) else None
  }
}
