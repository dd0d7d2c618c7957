/** What a read of a project reports and what it makes of a project older than the workflow
    tables (internal/store/workflow_state.go), read off the tables before it. */
module ReadOutcomes {
  import opened Prelude
  import opened Tables
  import opened Workflows
  import opened Operations
  import opened Reading
  import opened Lineage

  /* ---- Conflicts ---- */

  /** `m` is the highest attempt number with stage rows, or 0 if there are none. */
  ghost predicate IsLatest(stages: map<(nat, Stage), StageRow>, m: nat) {
    (forall key :: key in stages ==> key.0 <= m) && (m == 0 || exists s: Stage :: (m, s) in stages)
  }

  lemma LatestIs(stages: map<(nat, Stage), StageRow>, m: nat)
    requires IsLatest(stages, m)
    ensures LatestAttempt(stages) == m
  {
    var n := LatestAttempt(stages);
    if n != 0 {
      var s :| (n, s) in stages;
    }
    if m != 0 {
      var s: Stage :| (m, s) in stages;
    }
  }

  /** The row says that the stage has succeeded. */
  ghost predicate RowDone(run: Run, m: nat, s: Stage) { (m, s) in run.stages && run.stages[(m, s)].status == Done }

  /** The run has an artifact of the stage, made by the row's attempt if the row names one. */
  ghost predicate RowBacked(run: Run, m: nat, s: Stage) {
    (m, s) in run.stages &&
    exists x :: x in run.artifacts && x.stage == s &&
                (run.stages[(m, s)].attempt == None || run.stages[(m, s)].attempt == Some(x.attempt))
  }

  function Place(s: Stage): nat { match s case Pm => 1 case Architect => 2 case Engineer => 3 case Qa => 4 }

  /** Every stage has a row, and those before `s` have succeeded with an artifact. */
  ghost predicate ProvenUpTo(run: Run, m: nat, s: Stage) {
    (forall t: Stage :: (m, t) in run.stages) &&
    forall t: Stage :: Place(t) < Place(s) ==> RowDone(run, m, t) && RowBacked(run, m, t)
  }

  /** When each of the five codes speaks against a run whose latest stage rows are of attempt `m`. */
  ghost predicate CodeHolds(stable: Option<Id>, preview: Option<Id>, r: Id, run: Run, m: nat, c: ConflictCode) {
    match c
    case NoStablePreview => stable == None
    case PreviewMismatch => preview != Some(r)
    case StageMissing => exists s: Stage :: (m, s) !in run.stages
    case StageNotSucceeded => exists s: Stage :: ProvenUpTo(run, m, s) && !RowDone(run, m, s)
    case StageWithoutArtifact => exists s: Stage :: ProvenUpTo(run, m, s) && RowDone(run, m, s) && !RowBacked(run, m, s)
  }

  lemma RowsAre(run: Run, m: nat)
    requires IsLatest(run.stages, m)
    ensures |StageRows(run)| == 4 <==> forall s: Stage :: (m, s) in run.stages
    ensures |StageRows(run)| == 4 ==>
              StageRows(run) == [(Pm, run.stages[(m, Pm)]), (Architect, run.stages[(m, Architect)]),
                                 (Engineer, run.stages[(m, Engineer)]), (Qa, run.stages[(m, Qa)])]
  {
    LatestIs(run.stages, m);
    var last := RowsFrom(run, 4);
    var three := RowsFrom(run, 3);
    var two := RowsFrom(run, 2);
    var one := RowsFrom(run, 1);
    assert last == [] && |three| <= 1 && |two| <= 2 && |one| <= 3;
    if (m, Pm) in run.stages && (m, Architect) in run.stages && (m, Engineer) in run.stages && (m, Qa) in run.stages {
      forall s: Stage ensures (m, s) in run.stages {
        match s case Pm => case Architect => case Engineer => case Qa =>
      }
    }
  }

  predicate Fine(run: Run, row: (Stage, StageRow)) { row.1.status == Done && HasArtifact(run, row.0, row.1.attempt) }

  /** The first row that is not proven decides. */
  lemma {:induction false} FirstUnproven(run: Run, rows: seq<(Stage, StageRow)>) returns (j: nat)
    ensures j <= |rows| && forall i :: 0 <= i < j ==> Fine(run, rows[i])
    ensures if j == |rows| then StageConflict(run, rows) == []
            else !Fine(run, rows[j]) &&
                 StageConflict(run, rows) == [if rows[j].1.status == Done then StageWithoutArtifact else StageNotSucceeded]
    decreases |rows|
  {
    if rows == [] || !Fine(run, rows[0]) {
      j := 0;
    } else {
      var i := FirstUnproven(run, rows[1..]);
      j := i + 1;
    }
  }

  /** Stage `s` is the first whose row is not proven. */
  ghost predicate IsFirstUnproven(run: Run, m: nat, s: Stage) {
    ProvenUpTo(run, m, s) && !(RowDone(run, m, s) && RowBacked(run, m, s))
  }

  lemma OneFirstUnproven(run: Run, m: nat, s: Stage, t: Stage)
    requires IsFirstUnproven(run, m, s) && IsFirstUnproven(run, m, t)
    ensures s == t
  {
    assert Place(s) == Place(t) ==> s == t;
  }

  lemma StageCode(run: Run, m: nat) returns (first: Option<Stage>)
    requires IsLatest(run.stages, m) && forall s: Stage :: (m, s) in run.stages
    ensures match first
            case None => StageConflict(run, StageRows(run)) == [] && forall s: Stage :: RowDone(run, m, s) && RowBacked(run, m, s)
            case Some(s) => IsFirstUnproven(run, m, s) &&
                            StageConflict(run, StageRows(run)) == [if RowDone(run, m, s) then StageWithoutArtifact else StageNotSucceeded]
  {
    RowsAre(run, m);
    var rows := StageRows(run);
    var j := FirstUnproven(run, rows);
    forall s: Stage ensures rows[Place(s) - 1] == (s, run.stages[(m, s)]) {
    }
    forall s: Stage ensures Fine(run, rows[Place(s) - 1]) <==> RowDone(run, m, s) && RowBacked(run, m, s) {
    }
    if j == |rows| {
      first := None;
      forall s: Stage ensures RowDone(run, m, s) && RowBacked(run, m, s) {
        assert Fine(run, rows[Place(s) - 1]);
      }
    } else {
      var s := rows[j].0;
      first := Some(s);
      assert Place(s) == j + 1;
      forall t: Stage | Place(t) < Place(s) ensures RowDone(run, m, t) && RowBacked(run, m, t) {
        assert Fine(run, rows[Place(t) - 1]);
      }
    }
  }

  /** The codes that speak against a run are exactly those that hold. */
  lemma CodesExactly(stable: Option<Id>, preview: Option<Id>, r: Id, run: Run, m: nat, c: ConflictCode)
    requires IsLatest(run.stages, m)
    ensures c in ConflictsOf(stable, preview, r, run, StageRows(run)) <==> CodeHolds(stable, preview, r, run, m, c)
  {
    hide StageRows, StageConflict, RowDone, RowBacked;
    RowsAre(run, m);
    if forall s: Stage :: (m, s) in run.stages {
      var first := StageCode(run, m);
      forall s: Stage | IsFirstUnproven(run, m, s) ensures first == Some(s) {
        if first.Some? {
          OneFirstUnproven(run, m, s, first.value);
        }
      }
    }
  }

  /** What a read of a project with a workflow reports.  Of a run that has succeeded: each of the
      five codes exactly when it holds; of any other: the codes of the conflicts on record that
      are still open. */
  lemma ReadReportsExactly(db: Db, p: Id, now: Time, m: nat, c: ConflictCode)
    requires p < |db.projects| && p in db.workflows && GetProject(db, p, now).Ok?
    ensures var detail, run := GetProject(db, p, now).value.1, db.workflows[p].run;
            detail.stable == db.projects[p].stable && detail.run == run &&
            detail.preview == Provenance(db.versions, db.iterations, db.projects[p].stable) &&
            (run.Some? ==> run.value < |db.runs|) &&
            if run.Some? && db.runs[run.value].status == Succeeded
            then IsLatest(db.runs[run.value].stages, m) ==>
                   (c in detail.conflicts <==>
                    CodeHolds(detail.stable, detail.preview, run.value, db.runs[run.value], m, c))
            else c in detail.conflicts <==> exists r :: (p, r, c) in db.conflicts && db.conflicts[(p, r, c)] == None
  {
    var run := db.workflows[p].run;
    var stable := db.projects[p].stable;
    if run.Some? && db.runs[run.value].status == Succeeded {
      if IsLatest(db.runs[run.value].stages, m) {
        CodesExactly(stable, Provenance(db.versions, db.iterations, stable), run.value, db.runs[run.value], m, c);
      }
    } else {
      OpenExactly(db.conflicts, p, c);
    }
  }

  lemma OpenRowsExactly(conflicts: Conflicts, p: Id, c: ConflictCode)
    ensures OpenRows(conflicts, p, c) > 0 <==> exists r :: (p, r, c) in conflicts && conflicts[(p, r, c)] == None
  {
    var open := set key | key in conflicts && key.0 == p && key.2 == c && conflicts[key] == None;
    if open != {} {
      var key :| key in open;
      assert key == (p, key.1, c);
    }
    if r :| (p, r, c) in conflicts && conflicts[(p, r, c)] == None {
      assert (p, r, c) in open;
    }
  }

  lemma OpenExactly(conflicts: Conflicts, p: Id, c: ConflictCode)
    ensures c in OpenCodes(conflicts, p) <==> exists r :: (p, r, c) in conflicts && conflicts[(p, r, c)] == None
  {
    hide OpenRows;
    OpenRowsExactly(conflicts, p, c);
    forall d: ConflictCode, n: nat ensures c in Repeat(d, n) <==> c == d && n > 0 {
      assert n > 0 ==> Repeat(d, n)[0] == d;
    }
  }

  /* ---- Backfill ---- */

  /** The log says that the stage was started. */
  ghost predicate WasStarted(log: seq<Event>, s: Stage) { exists i :: 0 <= i < |log| && log[i].kind == StageStarted(s) }

  /** Event `i` is the last failure in the log. */
  ghost predicate IsLastFailure(log: seq<Event>, i: nat) {
    i < |log| && log[i].kind.RunFailed? && forall j :: i < j < |log| ==> !log[j].kind.RunFailed?
  }

  /** The last failure in the log names the stage. */
  ghost predicate Blames(log: seq<Event>, s: Stage) {
    exists i: nat :: IsLastFailure(log, i) && log[i].kind.failedStage == Some(s)
  }

  /** `x` shows work on the stage by the attempt, or by any if there is none. */
  predicate Shows(x: Artifact, s: Stage, attempt: Option<Id>) { x.stage == s && (attempt == None || attempt == Some(x.attempt)) }

  ghost predicate HasShown(run: Run, s: Stage, attempt: Option<Id>) {
    exists x :: x in run.artifacts && Shows(x, s, attempt)
  }

  /** Event `i` is the last start of the stage in the log. */
  ghost predicate IsLastStart(log: seq<Event>, s: Stage, i: nat) {
    i < |log| && log[i].kind == StageStarted(s) && forall j :: i < j < |log| ==> log[j].kind != StageStarted(s)
  }

  /** `t` is the latest time of an artifact that shows the stage. */
  ghost predicate IsLatestShown(run: Run, s: Stage, attempt: Option<Id>, t: Time) {
    (exists x :: x in run.artifacts && Shows(x, s, attempt) && x.createdAt == t) &&
    forall x :: x in run.artifacts && Shows(x, s, attempt) ==> x.createdAt <= t
  }

  ghost predicate AllShown(run: Run, attempt: Option<Id>) { forall s: Stage :: HasShown(run, s, attempt) }

  lemma {:induction false} FailureIs(log: seq<Event>) returns (at: Option<nat>)
    ensures match at
            case None => FailureOf(log) == (None, "") && forall i :: 0 <= i < |log| ==> !log[i].kind.RunFailed?
            case Some(i) => IsLastFailure(log, i) && FailureOf(log) == (log[i].kind.failedStage, log[i].kind.code)
    decreases |log|
  {
    if log == [] {
      at := None;
    } else if log[|log| - 1].kind.RunFailed? {
      at := Some(|log| - 1);
    } else {
      at := FailureIs(log[..|log| - 1]);
    }
  }

  lemma {:induction false} BlamesExactly(log: seq<Event>, s: Stage)
    ensures FailureOf(log).0 == Some(s) <==> Blames(log, s)
  {
    var at := FailureIs(log);
  }

  lemma {:induction false} StartIs(log: seq<Event>, s: Stage) returns (at: Option<nat>)
    ensures match at
            case None => StartedAt(log, s) == None && !WasStarted(log, s)
            case Some(i) => IsLastStart(log, s, i) && StartedAt(log, s) == Some(log[i].createdAt)
    decreases |log|
  {
    if log == [] {
      at := None;
    } else if log[|log| - 1].kind == StageStarted(s) {
      at := Some(|log| - 1);
    } else {
      at := StartIs(log[..|log| - 1], s);
    }
  }

  lemma {:induction false} ShownIs(artifacts: seq<Artifact>, s: Stage, attempt: Option<Id>)
    ensures var t := ArtifactAt(artifacts, s, attempt);
            (t.None? ==> forall x :: x in artifacts ==> !Shows(x, s, attempt)) &&
            (t.Some? ==> (exists x :: x in artifacts && Shows(x, s, attempt) && x.createdAt == t.value) &&
                         forall x :: x in artifacts && Shows(x, s, attempt) ==> x.createdAt <= t.value)
    decreases |artifacts|
  {
    if artifacts != [] {
      var last := |artifacts| - 1;
      ShownIs(artifacts[..last], s, attempt);
      forall x | x in artifacts ensures x in artifacts[..last] || x == artifacts[last] {
      }
      forall x | x in artifacts[..last] ensures x in artifacts {
      }
      assert artifacts[last] in artifacts;
    }
  }

  /** The status of a backfilled stage, in every case.  So after an interrupted run no stage is in
      progress, and after a failed one the stage that the last failure names has failed. */
  lemma BackfilledStatusExactly(run: Run, s: Stage, attempt: Option<Id>)
    ensures var status, shown, started := BackfilledStatus(run, s, attempt), HasShown(run, s, attempt), WasStarted(run.log, s);
            var blamed := run.status == Failed && Blames(run.log, s);
            (status == Broken <==> blamed) &&
            (status == Done <==> shown && !blamed) &&
            (status == Recovering <==> !shown && run.status == Succeeded) &&
            (status == Cancelled <==> !shown && started && run.status == Interrupted) &&
            (status == InProgress <==> !shown && started && !blamed && run.status != Succeeded && run.status != Interrupted) &&
            (status == Waiting <==> !shown && !started && !blamed && run.status != Succeeded)
  {
    hide FailureOf, StartedAt, ArtifactAt;
    BlamesExactly(run.log, s);
    var at := StartIs(run.log, s);
    ShownIs(run.artifacts, s, attempt);
    assert HasShown(run, s, attempt) <==> ArtifactAt(run.artifacts, s, attempt).Some?;
  }

  /** The times and the code of a backfilled row: the last start on record; as the end, the
      latest artifact of a stage that has succeeded and the run's last change of one that has
      failed or was cancelled; and the code of the last failure on the stage it names. */
  lemma BackfilledRowExactly(run: Run, s: Stage, attempt: Option<Id>)
    ensures var row := BackfilledRow(run, s, attempt);
            row.attempt == attempt && row.status == BackfilledStatus(run, s, attempt) && row.updatedAt == run.updatedAt &&
            (match row.startedAt
             case None => !WasStarted(run.log, s)
             case Some(t) => exists i: nat :: IsLastStart(run.log, s, i) && run.log[i].createdAt == t) &&
            (if row.status == Done then row.finishedAt.Some? && IsLatestShown(run, s, attempt, row.finishedAt.value)
             else row.finishedAt == if row.status == Broken || row.status == Cancelled then Some(run.updatedAt) else None) &&
            (row.status != Broken ==> row.errorCode == None) &&
            (row.status == Broken ==>
              exists i: nat :: IsLastFailure(run.log, i) && run.log[i].kind.failedStage == Some(s) &&
                row.errorCode == if run.log[i].kind.code == "" then None else Some(run.log[i].kind.code))
  {
    hide FailureOf, StartedAt, ArtifactAt;
    BackfilledStatusExactly(run, s, attempt);
    var start := StartIs(run.log, s);
    var failure := FailureIs(run.log);
    ShownIs(run.artifacts, s, attempt);
    assert HasShown(run, s, attempt) <==> ArtifactAt(run.artifacts, s, attempt).Some?;
  }

  /** The workflow a project without one is given, from the latest change of a run of it. */
  lemma RecoveredFlow(db: Db, p: Id, stable: Option<Id>, now: Time)
    requires Recover(db, p, stable, now).Ok?
    ensures var d := Recover(db, p, stable, now).value;
            d.workflows == db.workflows[p := d.workflows[p]] && d.workflows[p].version == 1 && d.workflows[p].updatedAt == now &&
            match d.workflows[p].run
            case None =>
              (forall r :: 0 <= r < |db.runs| ==> db.runs[r].project != p) && d.runs == db.runs &&
              d.workflows[p].status == if stable.Some? then RecoveringFlow else DraftFlow
            case Some(r) =>
              r < |db.runs| && db.runs[r].project == p &&
              (forall q :: 0 <= q < |db.runs| && db.runs[q].project == p ==>
                db.runs[q].updatedAt < db.runs[r].updatedAt ||
                (db.runs[q].updatedAt == db.runs[r].updatedAt && db.runs[q].createdAt <= db.runs[r].createdAt)) &&
              var run, attempt := db.runs[r], LastAttempt(db.runs[r].attempts);
              d.workflows[p].status == match run.status
                case Queued => RunningFlow
                case Running => RunningFlow
                case Failed => FailedFlow
                case Interrupted => CancelledFlow
                case Succeeded => if AllShown(run, attempt) then CompletedFlow else RecoveringFlow
  {
    hide BackfillStages, BackfilledStatus, IncompleteSuccess, AllShown;
    var r := LatestRun(db, p, |db.runs|);
    if r.Some? {
      var run, attempt := db.runs[r.value], LastAttempt(db.runs[r.value].attempts);
      IncompleteExactly(run, attempt);
    }
  }

  lemma IncompleteExactly(run: Run, attempt: Option<Id>)
    ensures IncompleteSuccess(run, attempt) <==> run.status == Succeeded && !AllShown(run, attempt)
  {
    hide BackfilledStatus, HasShown;
    if run.status == Succeeded {
      forall s: Stage ensures BackfilledStatus(run, s, attempt) == Done <==> HasShown(run, s, attempt) {
        BackfilledStatusExactly(run, s, attempt);
      }
    }
  }

  /** The rows of a run, with one more for each of the first `k` stages of the attempt. */
  ghost predicate Filled(run: Run, attempt: Option<Id>, sequence: nat, k: nat, stages: map<(nat, Stage), StageRow>) {
    (forall key :: key in stages <==> key in run.stages || (key.0 == sequence && Place(key.1) <= k)) &&
    forall key :: key in stages ==>
      stages[key] == if key in run.stages then run.stages[key] else BackfilledRow(run, key.1, attempt)
  }

  /** The backfill writes the row of each of the stages and no other, and is refused when one of
      them is there. */
  lemma {:induction false} BackfillRows(run: Run, attempt: Option<Id>, sequence: nat, k: nat)
    requires k <= 4
    ensures var res := BackfillStages(run, attempt, sequence, k);
            if exists s: Stage :: Place(s) <= k && (sequence, s) in run.stages then res == Err(Internal)
            else res.Ok? && Filled(run, attempt, sequence, k, res.value)
    decreases k
  {
    hide BackfilledRow;
    if k > 0 {
      BackfillRows(run, attempt, sequence, k - 1);
      var s := STAGES[k - 1];
      assert Place(s) == k && forall t: Stage :: Place(t) <= k <==> Place(t) <= k - 1 || t == s;
      if forall t: Stage :: Place(t) <= k - 1 ==> (sequence, t) !in run.stages {
        var stages := BackfillStages(run, attempt, sequence, k - 1).value;
        assert (sequence, s) in stages <==> (sequence, s) in run.stages;
        if (sequence, s) !in run.stages {
          FilledNext(run, attempt, sequence, k, stages, s);
        }
      }
    }
  }

  lemma FilledNext(run: Run, attempt: Option<Id>, sequence: nat, k: nat, stages: map<(nat, Stage), StageRow>, s: Stage)
    requires k > 0 && Filled(run, attempt, sequence, k - 1, stages) && Place(s) == k && (sequence, s) !in run.stages
    ensures Filled(run, attempt, sequence, k, stages[(sequence, s) := BackfilledRow(run, s, attempt)])
  {
    hide BackfilledRow;
    assert forall t: Stage :: Place(t) <= k <==> Place(t) <= k - 1 || t == s;
  }
}
