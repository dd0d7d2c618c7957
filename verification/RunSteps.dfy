/** Every write to a run keeps the invariant (internal/store/run.go, draft.go). */
module RunSteps {
  import opened Prelude
  import opened Tables
  import opened Workflows
  import opened Operations
  import opened Invariant

  /* ---- Rows ---- */

  lemma {:induction false} MaxSequenceOfNumbered(attempts: seq<Attempt>)
    requires forall k :: 0 <= k < |attempts| ==> attempts[k].sequence == k + 1
    ensures MaxSequence(attempts) == |attempts|
  {
    if attempts != [] {
      MaxSequenceOfNumbered(attempts[..|attempts| - 1]);
    }
  }

  lemma {:induction false} MaxEventSeqOfNumbered(log: seq<Event>)
    requires forall k :: 0 <= k < |log| ==> log[k].seq_ == k + 1
    ensures MaxEventSeq(log) == |log|
  {
    if log != [] {
      MaxEventSeqOfNumbered(log[..|log| - 1]);
    }
  }

  /** Lifecycle events are booked on the last attempt. */
  lemma {:induction false} ActiveAttemptIsLast(attempts: seq<Attempt>)
    requires attempts != []
    requires forall k :: 0 <= k < |attempts| ==> attempts[k].sequence == k + 1
    requires forall k :: 0 <= k < |attempts| - 1 ==> !attempts[k].status.Active()
    ensures ActiveAttempt(attempts) == Some(|attempts| - 1)
  {
    var last := |attempts| - 1;
    if last > 0 {
      ActiveAttemptIsLast(attempts[..last]);
      assert attempts[..last][last - 1] == attempts[last - 1];
    }
  }

  lemma SetStageOk(run: Run, a: Id, stage: Stage, status: StageStatus, now: Time, code: Option<string>)
    requires RunOk(run) && a < |run.attempts|
    ensures var row := SetStage(run, a, a + 1, stage, status, now, code); RunOk(row) && row == run.(stages := row.stages)
  {
    assert (a + 1, stage) in run.stages;
  }

  lemma NewAttemptStages(stages: map<(nat, Stage), StageRow>, n: nat, now: Time)
    requires StagesOk(stages, n)
    ensures StagesOk(InitStages(stages, n, n + 1, now), n + 1)
  {
    var stages' := InitStages(stages, n, n + 1, now);
    forall k: nat, s: Stage | 1 <= k <= n + 1 ensures (k, s) in stages' {
      if k <= n {
        assert (k, s) in stages;
      } else {
        match s case Pm => case Architect => case Engineer => case Qa =>
      }
    }
    forall key | key in stages' ensures 1 <= key.0 <= n + 1 && stages'[key].attempt == Some(key.0 - 1) {
    }
  }

  lemma NewRunOk(p: Id, status: Status, base: Option<Id>, now: Time)
    requires status == Queued || status == Failed
    ensures RunOk(NewRun(p, status, base, now))
  {
    hide InitStages;
    NewAttemptStages(map[], 0, now);
    var run := NewRun(p, status, base, now);
    assert run.stages == InitStages(map[], 0, 1, now);
  }

  /* ---- Writes to the row of one run ---- */

  /** Only run `r` differs, and it kept its project. */
  ghost predicate OnlyRun(db: Db, d: Db, r: Id) {
    r < |db.runs| == |d.runs| &&
    forall k :: 0 <= k < |db.runs| && k != r ==> d.runs[k] == db.runs[k]
  }

  /** A write of run `r` that touches its row and, if it is pointed at, its workflow. */
  ghost predicate RunWrite(db: Db, d: Db, r: Id, status: WorkflowStatus, now: Time) {
    OnlyRun(db, d, r) &&
    d == db.(runs := d.runs, workflows := Bumped(db, r, status, now))
  }

  /** Stage rows, artifacts and the number of attempts are the same. */
  predicate SameShown(a: Run, b: Run) {
    b.stages == a.stages && b.artifacts == a.artifacts && |b.attempts| == |a.attempts|
  }

  /** May the event take a stage back that was done? */
  predicate Disruptive(kind: EventKind) { kind.StageStarted? || (kind.RunFailed? && kind.failedStage.Some?) }

  /** Has a disruptive event been logged since? */
  predicate Disrupted(a: Run, b: Run) { exists k | |a.log| <= k < |b.log| :: Disruptive(b.log[k].kind) }

  /** Stages that were done are done, and artifacts that were there are there. */
  ghost predicate KeepsDone(a: Run, b: Run) {
    a.artifacts <= b.artifacts &&
    forall key :: key in a.stages && a.stages[key].status == Done ==> key in b.stages && b.stages[key].status == Done
  }

  lemma ArtifactKeepsDone(run: Run, a: Id, stage: Stage, ref: string, now: Time)
    ensures KeepsDone(run, ArtifactRow(run, a, stage, ref, now))
  {
  }

  /** An event that is not disruptive takes no stage back. */
  lemma EventKeepsDone(run: Run, kind: EventKind, now: Time)
    requires run.attempts != []
    ensures Disrupted(run, EventRow(run, kind, now)) || KeepsDone(run, EventRow(run, kind, now))
  {
    if Disruptive(kind) {
      assert Disruptive(EventRow(run, kind, now).log[|run.log|].kind);
    }
  }

  /** The row of a run after an artifact of attempt `a`. */
  function ArtifactRow(run: Run, a: Id, stage: Stage, ref: string, now: Time): Run {
    SetStage(run.(artifacts := run.artifacts + [Artifact(a, stage, ref, now)]), a, a + 1, stage, Done, now, None)
  }

  lemma RecordArtifactKeeps(db: Db, ro: FileSet, r: Id, a: Id, stage: Stage, ref: string, now: Time)
    requires Inv(db, ro) && r < |db.runs| && a < |db.runs[r].attempts|
    ensures RecordArtifact(db, r, a, stage, ref, now).Ok?
    ensures var d := RecordArtifact(db, r, a, stage, ref, now).value;
            Inv(d, ro) && Grows(db, d) && RunWrite(db, d, r, RunningFlow, now) &&
            d.runs[r] == ArtifactRow(db.runs[r], a, stage, ref, now) &&
            d.runs[r].status == db.runs[r].status && d.runs[r].attempts == db.runs[r].attempts
  {
    hide VersionOk, SetStage, ArtifactRow, RecordArtifact, ProjectOk, IterationOk, RunOk;
    var row := ArtifactRow(db.runs[r], a, stage, ref, now);
    ArtifactRowOk(db.runs[r], a, stage, ref, now);
    RecordArtifactIs(db, r, a, stage, ref, now);
    if row.status.Active() {
      StillSingle(db, r, row);
    }
    RunWriteKeeps(db, ro, r, row, RunningFlow, now);
  }

  lemma ArtifactRowOk(run: Run, a: Id, stage: Stage, ref: string, now: Time)
    requires RunOk(run) && a < |run.attempts|
    ensures var row := ArtifactRow(run, a, stage, ref, now);
            RunOk(row) && RunKept(run, row) && row.status == run.status && row.attempts == run.attempts && row.project == run.project
  {
    var run1 := run.(artifacts := run.artifacts + [Artifact(a, stage, ref, now)]);
    assert RunOk(run1);
    SetStageOk(run1, a, stage, StageStatus.Done, now, None);
  }

  lemma RecordArtifactIs(db: Db, r: Id, a: Id, stage: Stage, ref: string, now: Time)
    requires r < |db.runs| && a < |db.runs[r].attempts| && RunOk(db.runs[r])
    ensures RecordArtifact(db, r, a, stage, ref, now) ==
            Bump(db.(runs := db.runs[r := ArtifactRow(db.runs[r], a, stage, ref, now)]), r, RunningFlow, now)
  {
    hide Bump, SetStage;
  }

  lemma StillSingle(db: Db, r: Id, row: Run)
    requires SingleActive(db) && r < |db.runs| && row.project == db.runs[r].project
    requires db.runs[r].status.Active()
    ensures !BreaksActiveIndex(db, r, row)
  {
    assert ActiveIn(db, r, row.project);
  }

  /** The workflow status an event sets, if it sets one. */
  function FlowOfEvent(kind: EventKind): Option<WorkflowStatus> {
    match kind
    case RunStarted => Some(RunningFlow)
    case StageStarted(_) => Some(RunningFlow)
    case StageArtifact(_) => Some(RunningFlow)
    case RunFailed(_, _) => Some(FailedFlow)
    case RunCompleted => Some(CompletedFlow)
    case _ => None
  }

  /** The row of a run after an event: the log grows by one and at most one stage row of
      the last attempt changes. */
  function EventRow(run: Run, kind: EventKind, now: Time): Run
    requires run.attempts != []
  {
    var logged := run.(log := run.log + [Event(|run.log| + 1, kind, now)]);
    var n := |run.attempts|;
    match kind
    case StageStarted(stage) => SetStage(logged, n - 1, n, stage, InProgress, now, None)
    case StageArtifact(stage) => SetStage(logged, n - 1, n, stage, StageStatus.Done, now, None)
    case RunFailed(Some(stage), code) =>
      SetStage(logged, n - 1, n, stage, Broken, now, if code == "" then None else Some(code))
    case _ => logged
  }

  /** `row` is in order and goes on where `run` was, with the same attempts and status. */
  ghost predicate GoesOn(run: Run, row: Run) {
    RunOk(row) && RunKept(run, row) && row.status == run.status && row.attempts == run.attempts
  }

  lemma LoggedOk(run: Run, event: Event)
    requires RunOk(run) && event.seq_ == |run.log| + 1
    ensures GoesOn(run, run.(log := run.log + [event]))
  {
  }

  lemma StageEventOk(run: Run, event: Event, stage: Stage, status: StageStatus, now: Time, code: Option<string>)
    requires RunOk(run) && event.seq_ == |run.log| + 1
    ensures var n := |run.attempts|;
            n > 0 && GoesOn(run, SetStage(run.(log := run.log + [event]), n - 1, n, stage, status, now, code))
  {
    LoggedOk(run, event);
    SetStageOk(run.(log := run.log + [event]), |run.attempts| - 1, stage, status, now, code);
  }

  lemma EventRowOk(run: Run, kind: EventKind, now: Time)
    requires RunOk(run)
    ensures GoesOn(run, EventRow(run, kind, now))
  {
    hide RunOk, SetStage;
    var event := Event(|run.log| + 1, kind, now);
    match kind
    case StageStarted(stage) => StageEventOk(run, event, stage, InProgress, now, None);
    case StageArtifact(stage) => StageEventOk(run, event, stage, StageStatus.Done, now, None);
    case RunFailed(Some(stage), code) =>
      StageEventOk(run, event, stage, Broken, now, if code == "" then None else Some(code));
    case _ => LoggedOk(run, event);
  }

  /** An event is a write of the run's row, and a bump if it sets a status. */
  lemma AppendEventIs(db: Db, r: Id, kind: EventKind, now: Time)
    requires r < |db.runs| && RunOk(db.runs[r])
    ensures var db1 := db.(runs := db.runs[r := EventRow(db.runs[r], kind, now)]);
            AppendEvent(db, r, kind, now) ==
            match FlowOfEvent(kind) case Some(status) => Bump(db1, r, status, now) case None => Ok(db1)
  {
    hide Bump, SetStage;
    var run := db.runs[r];
    MaxEventSeqOfNumbered(run.log);
    ActiveAttemptIsLast(run.attempts);
    var logged := run.(log := run.log + [Event(|run.log| + 1, kind, now)]);
    var db0 := db.(runs := db.runs[r := logged]);
    assert db0.runs[r := EventRow(run, kind, now)] == db.runs[r := EventRow(run, kind, now)];
  }

  lemma AppendEventKeeps(db: Db, ro: FileSet, r: Id, kind: EventKind, now: Time)
    requires Inv(db, ro) && r < |db.runs|
    ensures AppendEvent(db, r, kind, now).Ok?
    ensures var d := AppendEvent(db, r, kind, now).value;
            Inv(d, ro) && Grows(db, d) && OnlyRun(db, d, r) && d.runs[r] == EventRow(db.runs[r], kind, now) &&
            match FlowOfEvent(kind)
            case Some(status) => RunWrite(db, d, r, status, now)
            case None => d == db.(runs := d.runs)
  {
    var row := EventRow(db.runs[r], kind, now);
    AppendEventIs(db, r, kind, now);
    EventRowOk(db.runs[r], kind, now);
    if row.status.Active() {
      StillSingle(db, r, row);
    }
    match FlowOfEvent(kind)
    case Some(status) => RunWriteKeeps(db, ro, r, row, status, now);
    case None => RunWriteSettles(db, ro, r, row, db.workflows);
  }

  lemma BeginAttemptKeeps(db: Db, ro: FileSet, r: Id, now: Time)
    requires Inv(db, ro) && r < |db.runs| && db.runs[r].status.Active()
    ensures var res := BeginAttempt(db, r, |db.runs[r].attempts| - 1, now);
            res.Ok? && Inv(res.value, ro) && Grows(db, res.value) && RunWrite(db, res.value, r, RunningFlow, now) &&
            res.value.runs[r].status == Running && SameShown(db.runs[r], res.value.runs[r])
  {
    hide VersionOk, Grows;
    var run := db.runs[r];
    var a := |run.attempts| - 1;
    var attempts := if run.attempts[a].status == Queued then EndAttempt(run.attempts, a, Running) else run.attempts;
    var row := run.(attempts := attempts, status := Running, updatedAt := now);
    assert RunOk(row);
    StillSingle(db, r, row);
    RunWriteKeeps(db, ro, r, row, RunningFlow, now);
  }

  lemma FailRunKeeps(db: Db, ro: FileSet, r: Id, now: Time)
    requires Inv(db, ro) && r < |db.runs|
    ensures var res := FailRun(db, r, now);
            res.Ok? && Inv(res.value, ro) && Grows(db, res.value) && RunWrite(db, res.value, r, FailedFlow, now) &&
            res.value.runs[r].status == Failed
  {
    hide VersionOk, Grows, Bump;
    var run := db.runs[r];
    var row := run.(attempts := FailedAttempts(run.attempts), status := Failed, activeAttempt := None, updatedAt := now);
    assert RunOk(row);
    RunWriteKeeps(db, ro, r, row, FailedFlow, now);
  }

  function RetriedRun(run: Run, now: Time): Run {
    var n := |run.attempts|;
    run.(attempts := run.attempts + [Attempt(n + 1, Running)], activeAttempt := Some(n), status := Running,
         updatedAt := now, stages := InitStages(run.stages, n, n + 1, now))
  }

  lemma RetriedRunOk(run: Run, now: Time)
    requires RunOk(run) && !run.status.Active()
    ensures RunOk(RetriedRun(run, now)) && RunKept(run, RetriedRun(run, now))
    ensures MaxSequence(run.attempts) == |run.attempts|
  {
    hide InitStages;
    MaxSequenceOfNumbered(run.attempts);
    NewAttemptStages(run.stages, |run.attempts|, now);
    var row := RetriedRun(run, now);
    assert forall k :: 0 <= k < |run.attempts| ==> row.attempts[k] == run.attempts[k];
  }

  lemma RetryBreaks(db: Db, r: Id, row: Run)
    requires r < |db.runs| && !db.runs[r].status.Active() && row.status.Active() && row.project == db.runs[r].project
    ensures BreaksActiveIndex(db, r, row) <==> HasActiveRun(db, db.runs[r].project)
  {
    assert !ActiveIn(db, r, db.runs[r].project);
  }

  /** A retry of a run that has ended badly is the write of its new row, if the index allows it. */
  lemma RetryWrites(db: Db, r: Id, now: Time)
    requires r < |db.runs| && (db.runs[r].status == Failed || db.runs[r].status == Interrupted)
    requires MaxSequence(db.runs[r].attempts) == |db.runs[r].attempts|
    ensures var row := RetriedRun(db.runs[r], now);
            var res := RetryRun(db, r, now);
            var bumped := Bump(db.(runs := db.runs[r := row]), r, RunningFlow, now);
            if BreaksActiveIndex(db, r, row) then res.Err?
            else bumped.Ok? ==> res.Ok? && res.value.0 == bumped.value
  {
    hide Bump, InitStages;
  }

  /** A retry either starts attempt n + 1 or, when another run of the project is active,
      is refused by the index. */
  lemma RetryRunKeeps(db: Db, ro: FileSet, r: Id, now: Time)
    requires Inv(db, ro)
    ensures var res := RetryRun(db, r, now);
            res.Ok? <==> r < |db.runs| && (db.runs[r].status == Failed || db.runs[r].status == Interrupted) &&
                         !HasActiveRun(db, db.runs[r].project)
    ensures RetryRun(db, r, now).Ok? ==>
              var d := RetryRun(db, r, now).value.0;
              Inv(d, ro) && Grows(db, d) && RunWrite(db, d, r, RunningFlow, now) &&
              d.runs[r] == RetriedRun(db.runs[r], now)
  {
    if r < |db.runs| && (db.runs[r].status == Failed || db.runs[r].status == Interrupted) {
      var run := db.runs[r];
      var row := RetriedRun(run, now);
      RetriedRunOk(run, now);
      RetryBreaks(db, r, row);
      RetryWrites(db, r, now);
      if !BreaksActiveIndex(db, r, row) {
        RunWriteKeeps(db, ro, r, row, RunningFlow, now);
      }
    }
  }
}
