/** Laws of reading: a second read returns what the first one did, consistency is exactly
    agreement of preview, run and stages, and backfill only claims what the history shows. */
module ReadingLaws {
  import opened Prelude
  import opened Tables
  import opened Workflows
  import opened Operations
  import opened Lineage
  import opened Reading
  import opened Invariant

  /* ---- A second read changes nothing ---- */

  lemma {:induction false} RecordedAgain(conflicts: Conflicts, p: Id, r: Id, codes: seq<ConflictCode>)
    ensures forall key :: key in Recorded(conflicts, p, r, codes) <==>
              key in conflicts || (key.0 == p && key.1 == r && key.2 in codes)
    ensures forall key :: key in Recorded(conflicts, p, r, codes) ==>
              Recorded(conflicts, p, r, codes)[key] ==
              if key.0 == p && key.1 == r && key.2 in codes then None else conflicts[key]
  {
    if codes != [] {
      RecordedAgain(conflicts, p, r, codes[..|codes| - 1]);
      var last := codes[|codes| - 1];
      assert forall c :: c in codes <==> c in codes[..|codes| - 1] || c == last;
    }
  }

  lemma {:induction false} RecordedTwice(conflicts: Conflicts, p: Id, r: Id, codes: seq<ConflictCode>)
    ensures Recorded(Recorded(conflicts, p, r, codes), p, r, codes) == Recorded(conflicts, p, r, codes)
  {
    RecordedAgain(conflicts, p, r, codes);
    RecordedAgain(Recorded(conflicts, p, r, codes), p, r, codes);
  }

  lemma ResolvedTwice(conflicts: Conflicts, p: Id, now: Time, later: Time)
    ensures Resolved(Resolved(conflicts, p, now), p, later) == Resolved(conflicts, p, now)
  {
  }

  /** A bump of the pointed run sets the status of its project's row and keeps the rest. */
  lemma BumpPointed(db: Db, p: Id, r: Id, status: WorkflowStatus, now: Time)
    requires p in db.workflows && db.workflows[p].run == Some(r)
    ensures Bump(db, r, status, now).Ok?
    ensures var d := Bump(db, r, status, now).value;
            d == db.(workflows := d.workflows) && d.workflows.Keys == db.workflows.Keys &&
            d.workflows[p] == Workflow(Some(r), status, db.workflows[p].version + 1, now)
  {
    assert PointedAt(db.workflows, r);
  }

  /** What reconciliation does to the project's row and to the rest of the tables. */
  lemma ReconcileEffect(db: Db, p: Id, stable: Option<Id>, preview: Option<Id>, now: Time)
    requires p in db.workflows
    requires Reconcile(db, p, stable, preview, now).Ok?
    ensures var (d, codes) := Reconcile(db, p, stable, preview, now).value;
            d == db.(workflows := d.workflows, conflicts := d.conflicts) &&
            d.workflows.Keys == db.workflows.Keys && d.workflows[p].run == db.workflows[p].run
  {
    hide StageRows, Bump, ConflictsOf, OpenCodes;
    var w := db.workflows[p];
    if w.run.Some? && w.run.value < |db.runs| && db.runs[w.run.value].status == Succeeded {
      var r := w.run.value;
      var codes := ConflictsOf(stable, preview, r, db.runs[r], StageRows(db.runs[r]));
      BumpPointed(db.(conflicts := Recorded(db.conflicts, p, r, codes)), p, r, RecoveringFlow, now);
      BumpPointed(db.(conflicts := Resolved(db.conflicts, p, now)), p, r, CompletedFlow, now);
    }
  }

  lemma ReconcileFixpoint(db: Db, p: Id, stable: Option<Id>, preview: Option<Id>, now: Time, later: Time)
    requires p in db.workflows
    requires Reconcile(db, p, stable, preview, now).Ok?
    ensures var (d, codes) := Reconcile(db, p, stable, preview, now).value;
            p in d.workflows && Reconcile(d, p, stable, preview, later) == Ok((d, codes))
  {
    hide StageRows, Bump, ConflictsOf, OpenCodes;
    var (d, codes) := Reconcile(db, p, stable, preview, now).value;
    ReconcileEffect(db, p, stable, preview, now);
    var w := db.workflows[p];
    if w.run.Some? && db.runs[w.run.value].status == Succeeded {
      var r := w.run.value;
      var found := ConflictsOf(stable, preview, r, db.runs[r], StageRows(db.runs[r]));
      if found != [] {
        FlaggedAgain(db, p, r, found, d, now);
      } else {
        HealedAgain(db, p, r, d, now, later);
      }
    }
  }

  /** Flagging a flagged workflow changes nothing. */
  lemma {:induction false} FlaggedAgain(db: Db, p: Id, r: Id, found: seq<ConflictCode>, d: Db, now: Time)
    requires p in db.workflows && db.workflows[p].run == Some(r)
    requires var db1 := db.(conflicts := Recorded(db.conflicts, p, r, found));
             Ok(d) == if db.workflows[p].status != RecoveringFlow then Bump(db1, r, RecoveringFlow, now) else Ok(db1)
    ensures p in d.workflows && d.workflows[p].status == RecoveringFlow && d.workflows[p].run == Some(r)
    ensures d.(conflicts := Recorded(d.conflicts, p, r, found)) == d
  {
    RecordedTwice(db.conflicts, p, r, found);
    BumpPointed(db.(conflicts := Recorded(db.conflicts, p, r, found)), p, r, RecoveringFlow, now);
  }

  /** Healing a healed workflow changes nothing. */
  lemma HealedAgain(db: Db, p: Id, r: Id, d: Db, now: Time, later: Time)
    requires p in db.workflows && db.workflows[p].run == Some(r)
    requires var db1 := db.(conflicts := Resolved(db.conflicts, p, now));
             Ok(d) == if db.workflows[p].status == RecoveringFlow then Bump(db1, r, CompletedFlow, now) else Ok(db1)
    ensures p in d.workflows && d.workflows[p].status != RecoveringFlow && d.workflows[p].run == Some(r)
    ensures d.(conflicts := Resolved(d.conflicts, p, later)) == d
  {
    ResolvedTwice(db.conflicts, p, now, later);
    BumpPointed(db.(conflicts := Resolved(db.conflicts, p, now)), p, r, CompletedFlow, now);
  }

  lemma SnapshotFixpoint(db: Db, p: Id, stable: Option<Id>, now: Time, later: Time)
    requires LoadSnapshot(db, p, stable, now).Ok?
    ensures var (d, detail) := LoadSnapshot(db, p, stable, now).value;
            LoadSnapshot(d, p, stable, later) == Ok((d, detail)) &&
            d == db.(workflows := d.workflows, conflicts := d.conflicts)
  {
    hide Reconcile, Provenance, StageRows;
    var preview := Provenance(db.versions, db.iterations, stable);
    ReconcileEffect(db, p, stable, preview, now);
    ReconcileFixpoint(db, p, stable, preview, now, later);
  }

  /** For any state that loads: a second read returns the same detail and writes nothing
      but the project's recency, also when the first one backfilled or healed. */
  lemma ReadIsFixpoint(db: Db, p: Id, now: Time, later: Time)
    requires GetProject(db, p, now).Ok?
    ensures var (d, detail) := GetProject(db, p, now).value;
            p < |d.projects| &&
            GetProject(d, p, later) ==
              Ok((d.(projects := d.projects[p := Project(d.projects[p].stable, later)]), detail))
  {
    hide Reconcile, Provenance, StagesOfWorkflow;
    var (d, detail) := GetProject(db, p, now).value;
    var stable := db.projects[p].stable;
    var db0 := db.(projects := db.projects[p := Project(stable, now)]);
    var db1 := (if p in db0.workflows then Ok(db0) else Recover(db0, p, stable, now)).value;
    SnapshotFixpoint(db1, p, stable, now, later);
    SnapshotFrame(d, p, stable, later);
  }

  /** Recency plays no part in a snapshot. */
  lemma SnapshotFrame(d: Db, p: Id, stable: Option<Id>, later: Time)
    requires p < |d.projects| && d.projects[p].stable == stable && p in d.workflows
    requires LoadSnapshot(d, p, stable, later).Ok? && LoadSnapshot(d, p, stable, later).value.0 == d
    ensures var d' := d.(projects := d.projects[p := Project(stable, later)]);
            LoadSnapshot(d', p, stable, later) == Ok((d', LoadSnapshot(d, p, stable, later).value.1))
  {
    hide Reconcile, Provenance, StageRows;
    var d' := d.(projects := d.projects[p := Project(stable, later)]);
    var preview := Provenance(d.versions, d.iterations, stable);
    ReconcileFrame(d, d', p, stable, preview, later);
  }

  lemma ReconcileFrame(d: Db, d': Db, p: Id, stable: Option<Id>, preview: Option<Id>, now: Time)
    requires p in d.workflows && d' == d.(projects := d'.projects)
    ensures var a, b := Reconcile(d, p, stable, preview, now), Reconcile(d', p, stable, preview, now);
            a.Ok? == b.Ok? &&
            (a.Ok? ==> b.value == (a.value.0.(projects := d'.projects), a.value.1))
  {
    hide StageRows, Bump;
    var w := d.workflows[p];
    if w.run.Some? && w.run.value < |d.runs| && d.runs[w.run.value].status == Succeeded {
      var r := w.run.value;
      var codes := ConflictsOf(stable, preview, r, d.runs[r], StageRows(d.runs[r]));
      var recorded, resolved := Recorded(d.conflicts, p, r, codes), Resolved(d.conflicts, p, now);
      BumpFrame(d.(conflicts := recorded), d'.(conflicts := recorded), r, RecoveringFlow, now);
      BumpFrame(d.(conflicts := resolved), d'.(conflicts := resolved), r, CompletedFlow, now);
    }
  }

  lemma BumpFrame(d: Db, d': Db, r: Id, status: WorkflowStatus, now: Time)
    requires d' == d.(projects := d'.projects)
    ensures Bump(d', r, status, now) ==
            match Bump(d, r, status, now) case Ok(e) => Ok(e.(projects := d'.projects)) case Err(e) => Err(e)
  {
  }

  /* ---- When a completed run is consistent ---- */

  /** The latest attempt has a succeeded row with an artifact for stage `s`. */
  ghost predicate StageProven(run: Run, s: Stage) {
    var key := (LatestAttempt(run.stages), s);
    key in run.stages && run.stages[key].status == Done && HasArtifact(run, s, run.stages[key].attempt)
  }

  lemma {:induction false} RowsComplete(run: Run, k: nat)
    requires k <= |STAGES|
    ensures |RowsFrom(run, k)| == |STAGES| - k <==>
            forall j :: k <= j < |STAGES| ==> (LatestAttempt(run.stages), STAGES[j]) in run.stages
    ensures |RowsFrom(run, k)| == |STAGES| - k ==>
              forall j :: k <= j < |STAGES| ==>
                RowsFrom(run, k)[j - k] == (STAGES[j], run.stages[(LatestAttempt(run.stages), STAGES[j])])
    decreases |STAGES| - k
  {
    if k < |STAGES| {
      RowsComplete(run, k + 1);
    }
  }

  lemma {:induction false} StageConflictNone(run: Run, rows: seq<(Stage, StageRow)>)
    ensures StageConflict(run, rows) == [] <==>
            forall j :: 0 <= j < |rows| ==> rows[j].1.status == Done && HasArtifact(run, rows[j].0, rows[j].1.attempt)
  {
    if rows != [] {
      StageConflictNone(run, rows[1..]);
      assert forall j :: 1 <= j < |rows| ==> rows[1..][j - 1] == rows[j];
    }
  }

  ghost predicate AllProven(run: Run) { forall s: Stage :: StageProven(run, s) }

  lemma {:induction false} ProvenByRows(run: Run)
    ensures AllProven(run) <==> |StageRows(run)| == |STAGES| && StageConflict(run, StageRows(run)) == []
  {
    var rows := StageRows(run);
    RowsComplete(run, 0);
    StageConflictNone(run, rows);
    if |rows| == |STAGES| && StageConflict(run, rows) == [] {
      forall s: Stage ensures StageProven(run, s) {
        var j := Position(s);
        assert rows[j] == (s, run.stages[(LatestAttempt(run.stages), s)]);
      }
    }
    if AllProven(run) {
      forall j | 0 <= j < |STAGES| ensures (LatestAttempt(run.stages), STAGES[j]) in run.stages {
        assert StageProven(run, STAGES[j]);
      }
      forall j | 0 <= j < |rows|
        ensures rows[j].1.status == Done && HasArtifact(run, rows[j].0, rows[j].1.attempt)
      {
        assert StageProven(run, STAGES[j]);
      }
    }
  }

  /** No conflict means: a stable preview exists, its provenance is the run, and every
      stage of the latest attempt succeeded with an artifact. */
  lemma ConflictFreeExactly(stable: Option<Id>, preview: Option<Id>, r: Id, run: Run)
    ensures ConflictsOf(stable, preview, r, run, StageRows(run)) == [] <==>
            stable.Some? && preview == Some(r) && AllProven(run)
  {
    ProvenByRows(run);
  }

  /** For a project whose workflow is a succeeded run, a read reports consistency exactly
      when preview, run and stages agree; it moves the status to recovering when they do
      not, and out of recovering when they do. */
  lemma ConsistentExactly(db: Db, p: Id, now: Time)
    requires p < |db.projects| && p in db.workflows && db.workflows[p].run.Some?
    requires var r := db.workflows[p].run.value; r < |db.runs| && db.runs[r].status == Succeeded
    ensures GetProject(db, p, now).Ok?
    ensures var r := db.workflows[p].run.value;
            var (d, detail) := GetProject(db, p, now).value;
            var agree := db.projects[p].stable.Some? &&
                         Provenance(db.versions, db.iterations, db.projects[p].stable) == Some(r) &&
                         AllProven(db.runs[r]);
            (detail.conflicts == [] <==> agree) &&
            detail.run == Some(r) &&
            detail.status == (if !agree then RecoveringFlow
                              else if db.workflows[p].status == RecoveringFlow then CompletedFlow
                              else db.workflows[p].status) &&
            detail.version == db.workflows[p].version + if detail.status == db.workflows[p].status then 0 else 1
  {
    hide Recover;
    var r := db.workflows[p].run.value;
    var stable := db.projects[p].stable;
    var preview := Provenance(db.versions, db.iterations, stable);
    ConflictFreeExactly(stable, preview, r, db.runs[r]);
    var db0 := db.(projects := db.projects[p := Project(stable, now)]);
    var codes := ConflictsOf(stable, preview, r, db.runs[r], StageRows(db.runs[r]));
    BumpPointed(db0.(conflicts := Recorded(db0.conflicts, p, r, codes)), p, r, RecoveringFlow, now);
    BumpPointed(db0.(conflicts := Resolved(db0.conflicts, p, now)), p, r, CompletedFlow, now);
  }

  /* ---- Backfill ---- */

  /** A project without a workflow row has no stage rows for its runs. */
  ghost predicate HistoryOk(db: Db) {
    (forall r :: 0 <= r < |db.runs| && db.runs[r].project !in db.workflows ==> db.runs[r].stages == map[]) &&
    FlowsOwn(db)
  }

  /** A workflow row points at a run of its own project. */
  ghost predicate FlowsOwn(db: Db) {
    forall p :: p in db.workflows && db.workflows[p].run.Some? ==>
      db.workflows[p].run.value < |db.runs| && db.runs[db.workflows[p].run.value].project == p
  }

  lemma {:induction false} BackfillInserts(run: Run, attempt: Option<Id>, sequence: nat, k: nat)
    requires k <= |STAGES|
    requires forall s: Stage :: (sequence, s) !in run.stages
    ensures BackfillStages(run, attempt, sequence, k).Ok?
    ensures var stages := BackfillStages(run, attempt, sequence, k).value;
            (forall j :: 0 <= j < k ==>
              (sequence, STAGES[j]) in stages &&
              stages[(sequence, STAGES[j])] == BackfilledRow(run, STAGES[j], attempt)) &&
            (forall j :: k <= j < |STAGES| ==> (sequence, STAGES[j]) !in stages) &&
            (forall key :: key in stages && key.0 != sequence ==> key in run.stages)
  {
    hide BackfilledRow;
    if k > 0 {
      BackfillInserts(run, attempt, sequence, k - 1);
    }
  }

  /** Artifacts show every stage. */
  ghost predicate AllShown(run: Run, attempt: Option<Id>) { forall s: Stage :: HasArtifact(run, s, attempt) }

  /** Every stage has a row, and a succeeded one has an artifact behind it. */
  ghost predicate RowsShown(run: Run, attempt: Option<Id>, sequence: nat, stages: map<(nat, Stage), StageRow>) {
    forall s: Stage ::
      (sequence, s) in stages && (stages[(sequence, s)].status == Done ==> HasArtifact(run, s, attempt))
  }

  /** The backfill of a project never hits an existing row.  A stage counts as succeeded
      only if an artifact shows it, and the workflow counts as completed exactly when the
      run succeeded and artifacts show all four stages. */
  lemma {:induction false} BackfillIsConservative(db: Db, p: Id, stable: Option<Id>, now: Time)
    requires HistoryOk(db) && p !in db.workflows
    ensures Recover(db, p, stable, now).Ok?
    ensures var d := Recover(db, p, stable, now).value;
            p in d.workflows && d.workflows[p].version == 1 &&
            match LatestRun(db, p, |db.runs|)
            case None => d.workflows[p].run == None && d.runs == db.runs
            case Some(r) =>
              var run := db.runs[r];
              var attempt := LastAttempt(run.attempts);
              var sequence := if attempt.Some? then run.attempts[attempt.value].sequence else 0;
              d.workflows[p].run == Some(r) &&
              RowsShown(run, attempt, sequence, d.runs[r].stages) &&
              (d.workflows[p].status == CompletedFlow <==> run.status == Succeeded && AllShown(run, attempt))
  {
    match LatestRun(db, p, |db.runs|)
    case None =>
    case Some(r) =>
      var run := db.runs[r];
      var attempt := LastAttempt(run.attempts);
      var sequence := if attempt.Some? then run.attempts[attempt.value].sequence else 0;
      assert run.stages == map[];
      var stages := StagesBackfilled(run, attempt, sequence);
      CompleteIffShown(run, attempt);
  }

  /** Every stage gets its row, and a succeeded row is backed by an artifact. */
  lemma StagesBackfilled(run: Run, attempt: Option<Id>, sequence: nat) returns (stages: map<(nat, Stage), StageRow>)
    requires run.stages == map[]
    ensures BackfillStages(run, attempt, sequence, |STAGES|) == Ok(stages)
    ensures RowsShown(run, attempt, sequence, stages)
  {
    BackfillInserts(run, attempt, sequence, |STAGES|);
    stages := BackfillStages(run, attempt, sequence, |STAGES|).value;
    forall s: Stage
      ensures (sequence, s) in stages && (stages[(sequence, s)].status == Done ==> HasArtifact(run, s, attempt))
    {
      var j := Position(s);
      ArtifactShown(run, s, attempt);
    }
  }

  lemma CompleteIffShown(run: Run, attempt: Option<Id>)
    ensures (if IncompleteSuccess(run, attempt) then RecoveringFlow else FlowOf(run.status)) == CompletedFlow <==>
            run.status == Succeeded && AllShown(run, attempt)
  {
    forall s: Stage
      ensures run.status == Succeeded ==> (BackfilledStatus(run, s, attempt) == Done <==> HasArtifact(run, s, attempt))
    {
      ArtifactShown(run, s, attempt);
    }
  }

  lemma {:induction false} ArtifactShown(run: Run, s: Stage, attempt: Option<Id>)
    ensures ArtifactAt(run.artifacts, s, attempt).Some? <==> HasArtifact(run, s, attempt)
  {
  }
}
