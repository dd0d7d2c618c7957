/** Reading a project (internal/store/workflow_state.go): backfill of projects older than
    the workflow tables, and reconciliation of the workflow with the preview. */
module Reading {
  import opened Prelude
  import opened Tables
  import opened Workflows
  import opened Operations
  import opened Lineage

  /** The rows of the latest attempt of a run, in stage order. */
  function StageRows(run: Run): seq<(Stage, StageRow)> { RowsFrom(run, 0) }

  function RowsFrom(run: Run, k: nat): (rows: seq<(Stage, StageRow)>)
    requires k <= |STAGES|
    ensures |rows| <= |STAGES| - k
    decreases |STAGES| - k
  {
    if k == |STAGES| then []
    else
      var key := (LatestAttempt(run.stages), STAGES[k]);
      (if key in run.stages then [(STAGES[k], run.stages[key])] else []) + RowsFrom(run, k + 1)
  }

  function StagesOfWorkflow(db: Db, r: Option<Id>): seq<(Stage, StageRow)> {
    if r.Some? && r.value < |db.runs| then StageRows(db.runs[r.value]) else []
  }

  /** Is there an artifact of the stage, made by the attempt if the row names one? */
  predicate HasArtifact(run: Run, stage: Stage, attempt: Option<Id>) {
    exists x | x in run.artifacts :: x.stage == stage && (attempt == None || attempt == Some(x.attempt))
  }

  /** The first stage that is not succeeded or has no artifact decides. */
  function StageConflict(run: Run, rows: seq<(Stage, StageRow)>): seq<ConflictCode> {
    if rows == [] then []
    else if rows[0].1.status != Done then [StageNotSucceeded]
    else if !HasArtifact(run, rows[0].0, rows[0].1.attempt) then [StageWithoutArtifact]
    else StageConflict(run, rows[1..])
  }

  /** What speaks against the workflow of run `r` having completed. */
  function ConflictsOf(stable: Option<Id>, preview: Option<Id>, r: Id, run: Run, rows: seq<(Stage, StageRow)>): seq<ConflictCode> {
    (if stable == None then [NoStablePreview] else []) +
    (if preview != Some(r) then [PreviewMismatch] else []) +
    (if |rows| != |STAGES| then [StageMissing] else StageConflict(run, rows))
  }

  type Conflicts = map<(Id, Id, ConflictCode), Option<Time>>

  function Repeat(c: ConflictCode, n: nat): seq<ConflictCode> { seq(n, _ => c) }

  function OpenRows(conflicts: Conflicts, p: Id, c: ConflictCode): nat {
    |set key | key in conflicts && key.0 == p && key.2 == c && conflicts[key] == None|
  }

  /** The codes of the project's unresolved conflicts, in the order of the codes. */
  function OpenCodes(conflicts: Conflicts, p: Id): seq<ConflictCode> {
    Repeat(NoStablePreview, OpenRows(conflicts, p, NoStablePreview)) +
    Repeat(PreviewMismatch, OpenRows(conflicts, p, PreviewMismatch)) +
    Repeat(StageMissing, OpenRows(conflicts, p, StageMissing)) +
    Repeat(StageNotSucceeded, OpenRows(conflicts, p, StageNotSucceeded)) +
    Repeat(StageWithoutArtifact, OpenRows(conflicts, p, StageWithoutArtifact))
  }

  function Recorded(conflicts: Conflicts, p: Id, r: Id, codes: seq<ConflictCode>): Conflicts {
    if codes == [] then conflicts
    else Recorded(conflicts, p, r, codes[..|codes| - 1])[(p, r, codes[|codes| - 1]) := None]
  }

  function Resolved(conflicts: Conflicts, p: Id, now: Time): Conflicts {
    map key | key in conflicts ::
      if key.0 == p && conflicts[key] == None then Some(now) else conflicts[key]
  }

  /** Compares a completed run with the preview and the stages, and heals or flags. */
  function Reconcile(db: Db, p: Id, stable: Option<Id>, preview: Option<Id>, now: Time): Result<(Db, seq<ConflictCode>)>
    requires p in db.workflows
  {
    var w := db.workflows[p];
    match w.run
    case None => Ok((db, OpenCodes(db.conflicts, p)))
    case Some(r) =>
      if r >= |db.runs| then Err(Internal)
      else if db.runs[r].status != Succeeded then Ok((db, OpenCodes(db.conflicts, p)))
      else
        var codes := ConflictsOf(stable, preview, r, db.runs[r], StageRows(db.runs[r]));
        if codes != [] then
          var db1 := db.(conflicts := Recorded(db.conflicts, p, r, codes));
          var db2 :- if w.status != RecoveringFlow then Bump(db1, r, RecoveringFlow, now) else Ok(db1);
          Ok((db2, codes))
        else
          var db1 := db.(conflicts := Resolved(db.conflicts, p, now));
          var db2 :- if w.status == RecoveringFlow then Bump(db1, r, CompletedFlow, now) else Ok(db1);
          Ok((db2, []))
  }

  /* ---- Backfill ---- */

  /** Is run `a` more recent than run `b`? */
  predicate MoreRecent(a: Run, b: Run) {
    a.updatedAt > b.updatedAt || (a.updatedAt == b.updatedAt && a.createdAt > b.createdAt)
  }

  /** The most recently updated run of the project among the first `n`. */
  function LatestRun(db: Db, p: Id, n: nat): (r: Option<Id>)
    requires n <= |db.runs|
    ensures r.Some? ==> r.value < n && db.runs[r.value].project == p
    ensures r.Some? ==> forall k :: 0 <= k < n && db.runs[k].project == p ==> !MoreRecent(db.runs[k], db.runs[r.value])
    ensures r.None? ==> forall k :: 0 <= k < n ==> db.runs[k].project != p
  {
    if n == 0 then None
    else
      var best := LatestRun(db, p, n - 1);
      if db.runs[n - 1].project == p && (best.None? || MoreRecent(db.runs[n - 1], db.runs[best.value]))
      then Some(n - 1) else best
  }

  /** The attempt with the highest number. */
  function LastAttempt(attempts: seq<Attempt>): (a: Option<Id>)
    ensures a.None? <==> attempts == []
    ensures a.Some? ==> a.value < |attempts|
    ensures a.Some? ==> forall k :: 0 <= k < |attempts| ==> attempts[k].sequence <= attempts[a.value].sequence
  {
    if attempts == [] then None
    else
      var last := |attempts| - 1;
      var best := LastAttempt(attempts[..last]);
      if best.None? || attempts[last].sequence > attempts[best.value].sequence then Some(last) else best
  }

  /** When the stage was last started, according to the log. */
  function StartedAt(log: seq<Event>, stage: Stage): Option<Time> {
    if log == [] then None
    else
      var last := |log| - 1;
      if log[last].kind == StageStarted(stage) then Some(log[last].createdAt) else StartedAt(log[..last], stage)
  }

  /** The stage and code of the last failure in the log. */
  function FailureOf(log: seq<Event>): (Option<Stage>, string) {
    if log == [] then (None, "")
    else
      var last := |log| - 1;
      match log[last].kind
      case RunFailed(stage, code) => (stage, code)
      case _ => FailureOf(log[..last])
  }

  /** The latest time of an artifact of the stage, of the given attempt if there is one. */
  function ArtifactAt(artifacts: seq<Artifact>, stage: Stage, attempt: Option<Id>): (t: Option<Time>)
    ensures t.Some? <==> exists x :: x in artifacts && x.stage == stage && (attempt == None || attempt == Some(x.attempt))
  {
    if artifacts == [] then None
    else
      var last := |artifacts| - 1;
      var x := artifacts[last];
      var earlier := ArtifactAt(artifacts[..last], stage, attempt);
      assert forall y :: y in artifacts <==> y in artifacts[..last] || y == x;
      if x.stage == stage && (attempt == None || attempt == Some(x.attempt))
         && (earlier.None? || x.createdAt >= earlier.value)
      then Some(x.createdAt) else earlier
  }

  /** The stage status the evidence supports. */
  function BackfilledStatus(run: Run, stage: Stage, attempt: Option<Id>): StageStatus {
    var artifactAt := ArtifactAt(run.artifacts, stage, attempt);
    var startedAt := StartedAt(run.log, stage);
    var seen := if artifactAt.Some? then Done else if startedAt.Some? then InProgress else Waiting;
    var complete := if run.status == Succeeded && seen != Done then Recovering else seen;
    var blamed := if run.status == Failed && FailureOf(run.log).0 == Some(stage) then Broken else complete;
    if run.status == Interrupted && blamed == InProgress then Cancelled else blamed
  }

  function BackfilledRow(run: Run, stage: Stage, attempt: Option<Id>): StageRow {
    var status := BackfilledStatus(run, stage, attempt);
    var code := FailureOf(run.log).1;
    StageRow(attempt, status, StartedAt(run.log, stage),
             if status == Done then ArtifactAt(run.artifacts, stage, attempt)
             else if status == Broken || status == Cancelled then Some(run.updatedAt) else None,
             run.updatedAt, if status == Broken && code != "" then Some(code) else None)
  }

  /** Inserts the rows of the first `k` stages; an existing row is a key violation. */
  function BackfillStages(run: Run, attempt: Option<Id>, sequence: nat, k: nat): Result<map<(nat, Stage), StageRow>>
    requires k <= |STAGES|
  {
    if k == 0 then Ok(run.stages)
    else
      var stages :- BackfillStages(run, attempt, sequence, k - 1);
      var key := (sequence, STAGES[k - 1]);
      if key in stages then Err(Internal) else Ok(stages[key := BackfilledRow(run, STAGES[k - 1], attempt)])
  }

  predicate IncompleteSuccess(run: Run, attempt: Option<Id>) {
    run.status == Succeeded && exists s: Stage :: BackfilledStatus(run, s, attempt) != Done
  }

  /** The workflow row of a project that has none, from what its history shows. */
  function Recover(db: Db, p: Id, stable: Option<Id>, now: Time): Result<Db> {
    match LatestRun(db, p, |db.runs|)
    case None =>
      var status := if stable.Some? then RecoveringFlow else DraftFlow;
      Ok(db.(workflows := db.workflows[p := Workflow(None, status, 1, now)]))
    case Some(r) =>
      var run := db.runs[r];
      var attempt := LastAttempt(run.attempts);
      var sequence := if attempt.Some? then run.attempts[attempt.value].sequence else 0;
      var stages :- BackfillStages(run, attempt, sequence, |STAGES|);
      var status := if IncompleteSuccess(run, attempt) then RecoveringFlow else FlowOf(run.status);
      Ok(db.(runs := db.runs[r := run.(stages := stages)],
             workflows := db.workflows[p := Workflow(Some(r), status, 1, now)]))
  }

  /* ---- The read ---- */

  datatype Detail = Detail(
    stable: Option<Id>, status: WorkflowStatus, version: nat, run: Option<Id>,
    stages: seq<(Stage, StageRow)>, preview: Option<Id>, conflicts: seq<ConflictCode>)

  /** Reading touches the project, backfills a missing workflow and reconciles. */
  ghost function GetProject(db: Db, p: Id, now: Time): Result<(Db, Detail)> {
    if p >= |db.projects| then Err(NotFound)
    else
      var stable := db.projects[p].stable;
      var db0 := db.(projects := db.projects[p := Project(stable, now)]);
      var db1 :- if p in db0.workflows then Ok(db0) else Recover(db0, p, stable, now);
      LoadSnapshot(db1, p, stable, now)
  }

  /** The snapshot of a project that has a workflow row. */
  ghost function LoadSnapshot(db: Db, p: Id, stable: Option<Id>, now: Time): Result<(Db, Detail)> {
    if p !in db.workflows then Err(Internal)
    else
      var run := db.workflows[p].run;
      var stages := StagesOfWorkflow(db, run);
      var preview := Provenance(db.versions, db.iterations, stable);
      var (db1, codes) :- Reconcile(db, p, stable, preview, now);
      if p !in db1.workflows then Err(Internal)
      else Ok((db1, Detail(stable, db1.workflows[p].status, db1.workflows[p].version, run, stages, preview, codes)))
  }
}
