/** What every reachable state of the store satisfies, and how a state may grow. */
module Invariant {
  import opened Prelude
  import opened Tables
  import opened Workflows
  import opened Operations
  import Gate

  /** A run's attempts are numbered 1 to n, only the last may be active, and it is active
      exactly while the run is; its events are numbered 1 to m; every attempt has its four
      stage rows and there are no others. */
  ghost predicate RunOk(run: Run) {
    var n := |run.attempts|;
    n > 0 &&
    (forall k :: 0 <= k < n ==> run.attempts[k].sequence == k + 1) &&
    (forall k :: 0 <= k < n - 1 ==> !run.attempts[k].status.Active()) &&
    (run.attempts[n - 1].status.Active() <==> run.status.Active()) &&
    (run.status.Active() ==> run.activeAttempt == Some(n - 1)) &&
    (forall k :: 0 <= k < |run.log| ==> run.log[k].seq_ == k + 1) &&
    StagesOk(run.stages, n) &&
    (forall k :: 0 <= k < |run.artifacts| ==> run.artifacts[k].attempt < n)
  }

  ghost predicate StagesOk(stages: map<(nat, Stage), StageRow>, n: nat) {
    (forall key :: key in stages ==> 1 <= key.0 <= n && stages[key].attempt == Some(key.0 - 1)) &&
    (forall k: nat, s: Stage :: 1 <= k <= n ==> (k, s) in stages)
  }

  /** `r` is the run of project `p` created last. */
  ghost predicate IsNewest(db: Db, p: Id, r: Option<Id>) {
    match r
    case None => forall k :: 0 <= k < |db.runs| ==> db.runs[k].project != p
    case Some(n) =>
      n < |db.runs| && db.runs[n].project == p &&
      forall k :: n < k < |db.runs| ==> db.runs[k].project != p
  }

  ghost predicate ProjectOk(db: Db, p: Id)
    requires p < |db.projects|
  {
    p in db.workflows && db.workflows[p].version >= 1 && IsNewest(db, p, db.workflows[p].run) &&
    match db.projects[p].stable
    case None => true
    case Some(v) => StableOf(db, v, p)
  }

  ghost predicate StableOf(db: Db, v: Id, p: Id) {
    v < |db.versions| && db.versions[v].project == p && db.versions[v].status == StableVersion
  }

  ghost predicate IterationOk(db: Db, i: Id)
    requires i < |db.iterations|
  {
    var it := db.iterations[i];
    it.project < |db.projects| &&
    (it.kind == AgentIteration <==> it.run.Some?) &&
    (it.run.Some? ==> it.run.value < |db.runs| && db.runs[it.run.value].project == it.project) &&
    (it.kind == ManualIteration ==> it.base.Some?) &&
    (it.base.Some? ==> StableOf(db, it.base.value, it.project))
  }

  /** The writable file is there and passes the compile gate. */
  ghost predicate AppPasses(files: FileSet) { APP in files && Gate.Passes(files[APP].content) }

  /** `ro` are the read-only files every snapshot carries. */
  ghost predicate VersionOk(db: Db, ro: FileSet, v: Id)
    requires v < |db.versions|
  {
    var version := db.versions[v];
    version.iteration < |db.iterations| && version.project < |db.projects| &&
    var it := db.iterations[version.iteration];
    it.project == version.project && it.kind != RestoreIteration &&
    (it.base.Some? ==> it.base.value < v) &&
    version.files - {APP} == ro && APP in version.files &&
    (version.status == StableVersion ==> AppPasses(version.files))
  }

  ghost predicate SingleActive(db: Db) {
    forall r, r', p :: ActiveIn(db, r, p) && ActiveIn(db, r', p) ==> r == r'
  }

  ghost predicate Inv(db: Db, ro: FileSet) {
    (forall p :: p in db.workflows ==> p < |db.projects|) &&
    (forall p :: 0 <= p < |db.projects| ==> ProjectOk(db, p)) &&
    (forall r :: 0 <= r < |db.runs| ==> db.runs[r].project < |db.projects| && RunOk(db.runs[r])) &&
    (forall i :: 0 <= i < |db.iterations| ==> IterationOk(db, i)) &&
    (forall v :: 0 <= v < |db.versions| ==> VersionOk(db, ro, v)) &&
    SingleActive(db)
  }

  /* ---- How a state may grow ---- */

  /** Files, owner and a settled status of a version never change. */
  ghost predicate VersionKept(a: Version, b: Version) {
    b.project == a.project && b.iteration == a.iteration && b.files == a.files &&
    (a.status != DraftVersion ==> b.status == a.status)
  }

  ghost predicate IterationKept(a: Iteration, b: Iteration) {
    b.project == a.project && b.run == a.run && b.kind == a.kind && b.base == a.base
  }

  ghost predicate RunKept(a: Run, b: Run) {
    b.project == a.project && a.log <= b.log && |a.attempts| <= |b.attempts|
  }

  /** Later states keep every row's identity, the logs, and the versions of workflows. */
  ghost predicate Grows(a: Db, b: Db) {
    |a.projects| <= |b.projects| && |a.runs| <= |b.runs| &&
    |a.iterations| <= |b.iterations| && |a.versions| <= |b.versions| &&
    (forall v :: 0 <= v < |a.versions| ==> VersionKept(a.versions[v], b.versions[v])) &&
    (forall i :: 0 <= i < |a.iterations| ==> IterationKept(a.iterations[i], b.iterations[i])) &&
    (forall r :: 0 <= r < |a.runs| ==> RunKept(a.runs[r], b.runs[r])) &&
    (forall p :: p in a.workflows ==> p in b.workflows && a.workflows[p].version <= b.workflows[p].version)
  }

  lemma GrowsTransitive(a: Db, b: Db, c: Db)
    requires Grows(a, b) && Grows(b, c)
    ensures Grows(a, c)
  {
  }

  /* ---- The workflow pointer ---- */

  /** Every pointer names a run of its own project, and every project has one row. */
  ghost predicate PointersOk(db: Db) {
    (forall p :: p in db.workflows && db.workflows[p].run.Some? ==>
      db.workflows[p].run.value < |db.runs| && db.runs[db.workflows[p].run.value].project == p) &&
    (forall r :: 0 <= r < |db.runs| ==> db.runs[r].project in db.workflows)
  }

  lemma InvPointers(db: Db, ro: FileSet)
    requires Inv(db, ro)
    ensures PointersOk(db)
  {
    hide VersionOk, RunOk;
    forall p | p in db.workflows ensures IsNewest(db, p, db.workflows[p].run) {
      assert ProjectOk(db, p);
    }
    forall r | 0 <= r < |db.runs| ensures db.runs[r].project in db.workflows {
      assert ProjectOk(db, db.runs[r].project);
    }
  }

  /** The workflow rows after a lifecycle write of run `r`. */
  function Bumped(db: Db, r: Id, status: WorkflowStatus, now: Time): map<Id, Workflow>
    requires r < |db.runs|
  {
    var p := db.runs[r].project;
    if p in db.workflows && db.workflows[p].run == Some(r)
    then db.workflows[p := Workflow(Some(r), status, db.workflows[p].version + 1, now)]
    else db.workflows
  }

  /** A lifecycle write of the pointed run sets the status and raises the version by one;
      one of an older run changes no workflow at all. */
  lemma BumpExact(db: Db, r: Id, status: WorkflowStatus, now: Time)
    requires PointersOk(db) && r < |db.runs|
    ensures Bump(db, r, status, now) == Ok(db.(workflows := Bumped(db, r, status, now)))
  {
    var p := db.runs[r].project;
    var ws := db.workflows;
    if ws[p].run == Some(r) {
      assert PointedAt(ws, r);
      assert Advanced(ws, r, status, now) == Bumped(db, r, status, now);
    }
  }

  /* ---- What growth preserves ---- */

  lemma IterationGrows(db: Db, db': Db, i: Id)
    requires i < |db.iterations| && IterationOk(db, i) && Grows(db, db')
    ensures IterationOk(db', i)
  {
    assert IterationKept(db.iterations[i], db'.iterations[i]);
    var it := db.iterations[i];
    if it.run.Some? {
      assert RunKept(db.runs[it.run.value], db'.runs[it.run.value]);
    }
    if it.base.Some? {
      assert VersionKept(db.versions[it.base.value], db'.versions[it.base.value]);
    }
  }

  lemma VersionGrows(db: Db, ro: FileSet, db': Db, v: Id)
    requires v < |db.versions| && VersionOk(db, ro, v) && Grows(db, db')
    requires db'.versions[v].status == db.versions[v].status
    ensures VersionOk(db', ro, v)
  {
    hide AppPasses;
    assert VersionKept(db.versions[v], db'.versions[v]);
    var i := db.versions[v].iteration;
    assert IterationKept(db.iterations[i], db'.iterations[i]);
  }

  /** The project's row, its workflow's run and the projects of all runs are as before. */
  lemma ProjectGrows(db: Db, db': Db, p: Id)
    requires p < |db.projects| && ProjectOk(db, p) && Grows(db, db')
    requires db'.projects[p].stable == db.projects[p].stable
    requires db'.workflows[p].run == db.workflows[p].run
    requires |db'.runs| == |db.runs|
    ensures ProjectOk(db', p)
  {
    assert forall r :: 0 <= r < |db.runs| ==> RunKept(db.runs[r], db'.runs[r]);
    if db.projects[p].stable.Some? {
      var v := db.projects[p].stable.value;
      assert VersionKept(db.versions[v], db'.versions[v]);
    }
  }

  /** The invariant after growth, once the rows that are new or changed are checked. */
  lemma Settle(db: Db, ro: FileSet, db': Db)
    requires Inv(db, ro) && Grows(db, db')
    requires forall p :: p in db'.workflows ==> p < |db'.projects|
    requires forall p :: 0 <= p < |db'.projects| ==> ProjectOk(db', p)
    requires forall r :: 0 <= r < |db'.runs| ==> db'.runs[r].project < |db'.projects| && RunOk(db'.runs[r])
    requires forall i :: |db.iterations| <= i < |db'.iterations| ==> IterationOk(db', i)
    requires forall v :: 0 <= v < |db'.versions| ==>
               (v < |db.versions| && db'.versions[v].status == db.versions[v].status) || VersionOk(db', ro, v)
    requires SingleActive(db')
    ensures Inv(db', ro)
  {
    hide VersionOk, Grows, RunOk, ProjectOk, IterationOk;
    forall i | 0 <= i < |db'.iterations| ensures IterationOk(db', i) {
      if i < |db.iterations| {
        IterationGrows(db, db', i);
      }
    }
    forall v | 0 <= v < |db'.versions| ensures VersionOk(db', ro, v) {
      if v < |db.versions| && db'.versions[v].status == db.versions[v].status {
        VersionGrows(db, ro, db', v);
      }
    }
  }

  /* ---- Writes to one run ---- */

  lemma RunWriteSingleActive(db: Db, r: Id, row: Run)
    requires SingleActive(db) && r < |db.runs| && row.project == db.runs[r].project
    requires row.status.Active() ==> !BreaksActiveIndex(db, r, row)
    ensures SingleActive(db.(runs := db.runs[r := row]))
  {
    var db' := db.(runs := db.runs[r := row]);
    forall a: Id, b: Id, p: Id | ActiveIn(db', a, p) && ActiveIn(db', b, p) ensures a == b {
      assert a != r ==> ActiveIn(db, a, p);
      assert b != r ==> ActiveIn(db, b, p);
    }
  }

  /** The same projects point at the same runs, and no version went down. */
  ghost predicate SameFlows(ws: map<Id, Workflow>, ws': map<Id, Workflow>) {
    ws'.Keys == ws.Keys &&
    forall p :: p in ws ==> ws'[p].run == ws[p].run && ws[p].version <= ws'[p].version
  }

  lemma BumpedSameFlows(db: Db, r: Id, status: WorkflowStatus, now: Time)
    requires r < |db.runs|
    ensures SameFlows(db.workflows, Bumped(db, r, status, now))
  {
  }

  /** A new row for run `r` and moved workflows keep the invariant. */
  lemma RunWriteSettles(db: Db, ro: FileSet, r: Id, row: Run, ws: map<Id, Workflow>)
    requires Inv(db, ro) && r < |db.runs| && SameFlows(db.workflows, ws)
    requires RunOk(row) && RunKept(db.runs[r], row)
    requires row.status.Active() ==> !BreaksActiveIndex(db, r, row)
    ensures var db' := db.(runs := db.runs[r := row], workflows := ws);
            Inv(db', ro) && Grows(db, db')
  {
    hide VersionOk, RunOk;
    var db1 := db.(runs := db.runs[r := row]);
    var db' := db1.(workflows := ws);
    RunWriteSingleActive(db, r, row);
    assert Grows(db, db');
    forall p | 0 <= p < |db.projects| ensures ProjectOk(db', p) {
      assert ProjectOk(db, p);
      ProjectGrows(db, db', p);
    }
    forall a: Id, b: Id, p: Id | ActiveIn(db', a, p) && ActiveIn(db', b, p) ensures a == b {
      assert ActiveIn(db1, a, p) && ActiveIn(db1, b, p);
    }
    Settle(db, ro, db');
  }

  lemma RunWriteBump(db: Db, r: Id, row: Run, status: WorkflowStatus, now: Time)
    requires PointersOk(db) && r < |db.runs| && row.project == db.runs[r].project
    ensures Bump(db.(runs := db.runs[r := row]), r, status, now) ==
            Ok(db.(runs := db.runs[r := row], workflows := Bumped(db, r, status, now)))
  {
    var db1 := db.(runs := db.runs[r := row]);
    assert PointersOk(db1);
    BumpExact(db1, r, status, now);
  }

  /** A lifecycle write of run `r`: its row and the workflow that points at it. */
  lemma RunWriteKeeps(db: Db, ro: FileSet, r: Id, row: Run, status: WorkflowStatus, now: Time)
    requires Inv(db, ro) && r < |db.runs|
    requires RunOk(row) && RunKept(db.runs[r], row)
    requires row.status.Active() ==> !BreaksActiveIndex(db, r, row)
    ensures var db' := db.(runs := db.runs[r := row], workflows := Bumped(db, r, status, now));
            Inv(db', ro) && Grows(db, db') &&
            Bump(db.(runs := db.runs[r := row]), r, status, now) == Ok(db')
  {
    hide Inv, Grows, Bump, RunOk;
    InvPointers(db, ro);
    RunWriteBump(db, r, row, status, now);
    BumpedSameFlows(db, r, status, now);
    RunWriteSettles(db, ro, r, row, Bumped(db, r, status, now));
  }

  /** Runs and projects are as before, and what is new is in order. */
  lemma QuietKeeps(db: Db, ro: FileSet, d: Db)
    requires Inv(db, ro) && Grows(db, d)
    requires d.runs == db.runs && d.projects == db.projects && SameFlows(db.workflows, d.workflows)
    requires forall i :: |db.iterations| <= i < |d.iterations| ==> IterationOk(d, i)
    requires forall v :: 0 <= v < |d.versions| ==>
               (v < |db.versions| && d.versions[v].status == db.versions[v].status) || VersionOk(d, ro, v)
    ensures Inv(d, ro)
  {
    hide VersionOk, Grows, RunOk;
    forall p | 0 <= p < |d.projects| ensures ProjectOk(d, p) {
      assert ProjectOk(db, p);
      ProjectGrows(db, d, p);
    }
    SameRunsSingle(db, d);
    Settle(db, ro, d);
  }

  lemma SameRunsSingle(db: Db, d: Db)
    requires SingleActive(db) && d.runs == db.runs
    ensures SingleActive(d)
  {
    forall a: Id, b: Id, p: Id | ActiveIn(d, a, p) && ActiveIn(d, b, p) ensures a == b {
      assert ActiveIn(db, a, p) && ActiveIn(db, b, p);
    }
  }
}
