/** Reading a project keeps the invariant. */
module ReadSteps {
  import opened Prelude
  import opened Tables
  import opened Workflows
  import opened Operations
  import opened Invariant
  import opened VersionSteps
  import opened Lineage
  import opened Reading
  import opened ReadingLaws

  lemma BumpFlows(db: Db, p: Id, r: Id, status: WorkflowStatus, now: Time)
    requires p in db.workflows && db.workflows[p].run == Some(r)
    ensures Bump(db, r, status, now).Ok? && SameFlows(db.workflows, Bump(db, r, status, now).value.workflows)
  {
    assert PointedAt(db.workflows, r);
  }

  lemma ReconcileFlows(db: Db, p: Id, stable: Option<Id>, preview: Option<Id>, now: Time)
    requires p in db.workflows && (db.workflows[p].run.Some? ==> db.workflows[p].run.value < |db.runs|)
    ensures Reconcile(db, p, stable, preview, now).Ok?
    ensures SameFlows(db.workflows, Reconcile(db, p, stable, preview, now).value.0.workflows)
  {
    hide StageRows, Bump;
    var w := db.workflows[p];
    if w.run.Some? && db.runs[w.run.value].status == Succeeded {
      var r := w.run.value;
      var codes := ConflictsOf(stable, preview, r, db.runs[r], StageRows(db.runs[r]));
      if codes != [] {
        BumpFlows(db.(conflicts := Recorded(db.conflicts, p, r, codes)), p, r, RecoveringFlow, now);
      } else {
        BumpFlows(db.(conflicts := Resolved(db.conflicts, p, now)), p, r, CompletedFlow, now);
      }
    }
  }

  lemma ConflictsKeep(db: Db, ro: FileSet, conflicts: Conflicts)
    requires Inv(db, ro)
    ensures Inv(db.(conflicts := conflicts), ro) && Grows(db, db.(conflicts := conflicts))
  {
    hide VersionOk, Inv, IterationOk;
    var d := db.(conflicts := conflicts);
    assert Grows(db, d);
    QuietKeeps(db, ro, d);
  }

  lemma TouchKeeps(db: Db, ro: FileSet, p: Id, now: Time)
    requires Inv(db, ro) && p < |db.projects|
    ensures var d := db.(projects := db.projects[p := Project(db.projects[p].stable, now)]);
            Inv(d, ro) && Grows(db, d)
  {
    hide VersionOk, RunOk;
    var d := db.(projects := db.projects[p := Project(db.projects[p].stable, now)]);
    assert Grows(db, d);
    forall q | 0 <= q < |d.projects| ensures ProjectOk(d, q) {
      assert ProjectOk(db, q);
      ProjectGrows(db, d, q);
    }
    SameRunsSingle(db, d);
    Settle(db, ro, d);
  }

  /** Reading a project always succeeds in a reachable state; it only touches recency,
      the status and version of workflows, and the conflict records. */
  lemma GetProjectKeeps(db: Db, ro: FileSet, p: Id, now: Time)
    requires Inv(db, ro) && p < |db.projects|
    ensures GetProject(db, p, now).Ok?
    ensures var d := GetProject(db, p, now).value.0;
            Inv(d, ro) && Grows(db, d) && d.runs == db.runs && d.versions == db.versions &&
            SameFlows(db.workflows, d.workflows) &&
            d.projects == db.projects[p := Project(db.projects[p].stable, now)]
  {
    hide VersionOk, Recover;
    assert ProjectOk(db, p);
    TouchKeeps(db, ro, p, now);
    var stable := db.projects[p].stable;
    var db0 := db.(projects := db.projects[p := Project(stable, now)]);
    var preview := Provenance(db0.versions, db0.iterations, stable);
    ReconcileFlows(db0, p, stable, preview, now);
    ReconcileEffect(db0, p, stable, preview, now);
    var d := Reconcile(db0, p, stable, preview, now).value.0;
    FlowsKeep(db0, ro, d.workflows);
    var db1 := db0.(workflows := d.workflows);
    ConflictsKeep(db1, ro, d.conflicts);
    GrowsTransitive(db0, db1, d);
    GrowsTransitive(db, db0, d);
  }
}
