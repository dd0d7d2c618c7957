/** Creating projects and runs, and every write to a version, keep the invariant
    (internal/store/project.go, run.go, draft.go, files.go, version.go). */
module VersionSteps {
  import opened Prelude
  import opened Tables
  import opened Workflows
  import opened Operations
  import opened Invariant
  import opened RunSteps
  import Gate

  lemma CreateProjectKeeps(db: Db, ro: FileSet, promptChars: nat, now: Time)
    requires Inv(db, ro)
    ensures var res := CreateProject(db, promptChars, now);
            res.Ok? ==> Inv(res.value.0, ro) && Grows(db, res.value.0) && res.value.0.runs == db.runs
  {
    hide VersionOk, RunOk;
    var res := CreateProject(db, promptChars, now);
    if res.Ok? {
      var d := res.value.0;
      var p := |db.projects|;
      assert p !in db.workflows;
      assert Grows(db, d);
      forall q | 0 <= q < |d.projects| ensures ProjectOk(d, q) {
        if q < p {
          assert ProjectOk(db, q);
          ProjectGrows(db, d, q);
        }
      }
      SameRunsSingle(db, d);
      Settle(db, ro, d);
    }
  }

  /** Adding a run that becomes the workflow of its project. */
  lemma AddRunKeeps(db: Db, ro: FileSet, p: Id, run: Run, status: WorkflowStatus, now: Time)
    requires Inv(db, ro) && p < |db.projects| && RunOk(run) && run.project == p
    requires run.status.Active() ==> !HasActiveRun(db, p)
    ensures var d := Point(db.(runs := db.runs + [run]), p, |db.runs|, status, now);
            Inv(d, ro) && Grows(db, d) && p in db.workflows &&
            d == db.(runs := db.runs + [run],
                     workflows := db.workflows[p := Workflow(Some(|db.runs|), status, db.workflows[p].version + 1, now)])
  {
    hide VersionOk, RunOk;
    assert ProjectOk(db, p);
    var d := Point(db.(runs := db.runs + [run]), p, |db.runs|, status, now);
    assert Grows(db, d);
    forall q | 0 <= q < |d.projects| ensures ProjectOk(d, q) {
      assert ProjectOk(db, q);
    }
    forall a: Id, b: Id, q: Id | ActiveIn(d, a, q) && ActiveIn(d, b, q) ensures a == b {
      assert a < |db.runs| ==> ActiveIn(db, a, q);
      assert b < |db.runs| ==> ActiveIn(db, b, q);
    }
    Settle(db, ro, d);
  }

  /** Adding an iteration. */
  lemma AddIterationKeeps(db: Db, ro: FileSet, it: Iteration)
    requires Inv(db, ro)
    requires var d := db.(iterations := db.iterations + [it]); IterationOk(d, |db.iterations|)
    ensures var d := db.(iterations := db.iterations + [it]); Inv(d, ro) && Grows(db, d)
  {
    hide VersionOk, Inv, IterationOk;
    var d := db.(iterations := db.iterations + [it]);
    assert Grows(db, d);
    QuietKeeps(db, ro, d);
  }

  /** Adding a version. */
  lemma AddVersionKeeps(db: Db, ro: FileSet, version: Version)
    requires Inv(db, ro)
    requires var d := db.(versions := db.versions + [version]); VersionOk(d, ro, |db.versions|)
    ensures var d := db.(versions := db.versions + [version]); Inv(d, ro) && Grows(db, d)
  {
    hide VersionOk, Inv;
    var d := db.(versions := db.versions + [version]);
    assert Grows(db, d);
    QuietKeeps(db, ro, d);
  }

  /** A new run becomes its project's workflow; every other workflow is as before. */
  lemma CreateRunKeeps(db: Db, ro: FileSet, p: Id, promptChars: nat, base: Option<Id>, canStart: bool, now: Time)
    requires Inv(db, ro) && CreateRun(db, p, promptChars, base, canStart, now).Ok?
    ensures var d := CreateRun(db, p, promptChars, base, canStart, now).value.0;
            var r := |db.runs|;
            Inv(d, ro) && Grows(db, d) && p < |db.projects| && p in db.workflows && |d.runs| == r + 1 &&
            d.runs == db.runs + [d.runs[r]] && d.runs[r].project == p && d.runs[r].status.Active() == canStart &&
            d.workflows == db.workflows[p := Workflow(Some(r), if canStart then RunningFlow else FailedFlow,
                                                      db.workflows[p].version + 1, now)]
  {
    var r := |db.runs|;
    var status := if canStart then Queued else Failed;
    var stable := db.projects[p].stable;
    assert ProjectOk(db, p);
    NewRunOk(p, status, stable, now);
    AddRunKeeps(db, ro, p, NewRun(p, status, stable, now), FlowOf(status), now);
    var db2 := Point(db.(runs := db.runs + [NewRun(p, status, stable, now)]), p, r, FlowOf(status), now);
    AddIterationKeeps(db2, ro, Iteration(p, Some(r), AgentIteration, stable, None));
    var d := CreateRun(db, p, promptChars, base, canStart, now).value.0;
    GrowsTransitive(db, db2, d);
  }

  lemma {:induction false} CreateDraftKeeps(db: Db, ro: FileSet, p: Id, it: Id, files: seq<Snapshot>)
    requires Inv(db, ro) && it < |db.iterations| && db.iterations[it].project == p
    requires db.iterations[it].kind == AgentIteration
    requires DistinctPaths(files) && APP in FileSetOf(files) && FileSetOf(files) - {APP} == ro
    ensures var res := CreateDraft(db, p, it, files);
            res.Ok? && res.value.1 == |db.versions| &&
            var d := res.value.0;
            Inv(d, ro) && Grows(db, d) && d.runs == db.runs &&
            d == db.(versions := db.versions + [Version(p, it, DraftVersion, FileSetOf(files))])
  {
    hide AppPasses, Grows, RunOk;
    assert IterationOk(db, it);
    var version := Version(p, it, DraftVersion, FileSetOf(files));
    assert VersionOk(db.(versions := db.versions + [version]), ro, |db.versions|);
    AddVersionKeeps(db, ro, version);
  }

  /** The run that owns a version, with its last attempt, or nobody. */
  ghost predicate OwnerOk(db: Db, owner: Option<(Id, Id)>) {
    owner.Some? ==>
      var (r, a) := owner.value;
      r < |db.runs| && db.runs[r].status.Active() && a == |db.runs[r].attempts| - 1
  }

  /** Ending the owner keeps the invariant. */
  lemma EndOwnerKeeps(db: Db, ro: FileSet, owner: Option<(Id, Id)>, status: Status, now: Time)
    requires Inv(db, ro) && OwnerOk(db, owner) && (status == Succeeded || status == Failed)
    ensures var res := EndOwner(db, owner, status, now);
            res.Ok? && Inv(res.value, ro) && Grows(db, res.value) &&
            match owner
            case None => res.value == db
            case Some((r, a)) =>
              RunWrite(db, res.value, r, FlowOf(status), now) && res.value.runs[r].status == status &&
              res.value.runs[r].log == db.runs[r].log && SameShown(db.runs[r], res.value.runs[r])
  {
    hide VersionOk;
    match owner
    case None =>
    case Some((r, a)) =>
      var row := EndRun(db.runs[r], a, status, now);
      assert RunOk(row);
      RunWriteKeeps(db, ro, r, row, FlowOf(status), now);
  }

  /** The three rows a version's end changes, before its owner is ended. */
  function Settled(db: Db, v: Id, status: VersionStatus): Db
    requires v < |db.versions| && db.versions[v].iteration < |db.iterations|
  {
    var i := db.versions[v].iteration;
    db.(versions := db.versions[v := db.versions[v].(status := status)],
        iterations := db.iterations[i := db.iterations[i].(result := Some(v))])
  }

  lemma SettledGrows(db: Db, v: Id, status: VersionStatus)
    requires v < |db.versions| && db.versions[v].iteration < |db.iterations|
    requires db.versions[v].status == DraftVersion
    ensures Grows(db, Settled(db, v, status))
  {
  }

  lemma SettledKeeps(db: Db, ro: FileSet, v: Id, status: VersionStatus)
    requires Inv(db, ro) && v < |db.versions| && db.versions[v].status == DraftVersion
    requires status == StableVersion ==> AppPasses(db.versions[v].files)
    ensures db.versions[v].iteration < |db.iterations|
    ensures Inv(Settled(db, v, status), ro) && Grows(db, Settled(db, v, status))
  {
    hide AppPasses, Grows, RunOk;
    assert VersionOk(db, ro, v);
    var d := Settled(db, v, status);
    SettledGrows(db, v, status);
    assert VersionOk(d, ro, v);
    QuietKeeps(db, ro, d);
  }

  /** Moving a stable pointer to a stable version of the same project. */
  lemma SwitchKeeps(db: Db, ro: FileSet, p: Id, v: Id, now: Time)
    requires Inv(db, ro) && p < |db.projects| && StableOf(db, v, p)
    ensures var d := db.(projects := db.projects[p := Project(Some(v), now)]);
            Inv(d, ro) && Grows(db, d)
  {
    hide VersionOk, RunOk;
    var d := db.(projects := db.projects[p := Project(Some(v), now)]);
    assert Grows(db, d);
    forall q | 0 <= q < |d.projects| ensures ProjectOk(d, q) {
      assert ProjectOk(db, q);
      if q != p {
        ProjectGrows(db, d, q);
      }
    }
    SameRunsSingle(db, d);
    Settle(db, ro, d);
  }

  /** What ending a version with status `status`, and its owner, leaves behind. */
  ghost predicate EndedWith(db: Db, d: Db, v: Id, owner: Option<(Id, Id)>, versionStatus: VersionStatus,
                            status: Status, now: Time)
  {
    v < |db.versions| && d.versions == db.versions[v := db.versions[v].(status := versionStatus)] &&
    match owner
    case None => d.runs == db.runs && d.workflows == db.workflows
    case Some((r, _)) =>
      OnlyRun(db, d, r) && d.runs[r].status == status && d.runs[r].log == db.runs[r].log &&
      SameShown(db.runs[r], d.runs[r]) &&
      d.workflows == Bumped(db, r, FlowOf(status), now)
  }

  /** Promoting a draft that passed the gate: it becomes stable and the stable version of
      its project, or the base moved and nothing changes. */
  lemma PromoteKeeps(db: Db, ro: FileSet, v: Id, owner: Option<(Id, Id)>, now: Time)
    requires Inv(db, ro) && v < |db.versions| && OwnerOk(db, owner) && AppPasses(db.versions[v].files)
    ensures var res := Promote(db, v, owner, now);
            if db.versions[v].status != DraftVersion then res == Ok((db, db.versions[v].status))
            else
              var p, i := db.versions[v].project, db.versions[v].iteration;
              p < |db.projects| && i < |db.iterations| &&
              if db.projects[p].stable != db.iterations[i].base then res == Err(Conflict)
              else
                res.Ok? && Inv(res.value.0, ro) && Grows(db, res.value.0) && res.value.1 == StableVersion &&
                res.value.0.projects == db.projects[p := Project(Some(v), now)] &&
                EndedWith(db, res.value.0, v, owner, StableVersion, Succeeded, now)
  {
    hide AppPasses, EndOwner, EndedWith, Grows, RunOk;
    assert VersionOk(db, ro, v);
    if db.versions[v].status == DraftVersion {
      var p := db.versions[v].project;
      if db.projects[p].stable == db.iterations[db.versions[v].iteration].base {
        var d := PromotedKeeps(db, ro, v, owner, now);
        PromoteIs(db, v, owner, now);
      }
    }
  }

  /** The draft as the stable version of its project, before the owner ends. */
  ghost function Switched(db: Db, v: Id, now: Time): Db
    requires v < |db.versions| && db.versions[v].iteration < |db.iterations| && db.versions[v].project < |db.projects|
  {
    var db1 := Settled(db, v, StableVersion);
    db1.(projects := db1.projects[db.versions[v].project := Project(Some(v), now)])
  }

  lemma PromoteIs(db: Db, v: Id, owner: Option<(Id, Id)>, now: Time)
    requires v < |db.versions| && db.versions[v].status == DraftVersion && db.versions[v].iteration < |db.iterations|
    requires db.versions[v].project < |db.projects|
    requires db.projects[db.versions[v].project].stable == db.iterations[db.versions[v].iteration].base
    requires EndOwner(Switched(db, v, now), owner, Succeeded, now).Ok?
    ensures Promote(db, v, owner, now) == Ok((EndOwner(Switched(db, v, now), owner, Succeeded, now).value, StableVersion))
  {
  }

  lemma PromotedKeeps(db: Db, ro: FileSet, v: Id, owner: Option<(Id, Id)>, now: Time) returns (d: Db)
    requires Inv(db, ro) && v < |db.versions| && OwnerOk(db, owner) && AppPasses(db.versions[v].files)
    requires db.versions[v].status == DraftVersion && db.versions[v].iteration < |db.iterations|
    requires db.versions[v].project < |db.projects|
    ensures EndOwner(Switched(db, v, now), owner, Succeeded, now) == Ok(d) && Inv(d, ro) && Grows(db, d)
    ensures d.projects == db.projects[db.versions[v].project := Project(Some(v), now)]
    ensures EndedWith(db, d, v, owner, StableVersion, Succeeded, now)
  {
    hide AppPasses, Inv, EndOwner, EndedWith, Grows;
    var db2 := Switched(db, v, now);
    SwitchedKeeps(db, ro, v, now);
    d := OwnerEnds(db, db2, ro, v, owner, StableVersion, Succeeded, now);
    GrowsTransitive(db, db2, d);
  }

  /** After the version is settled, the owner ends. */
  lemma OwnerEnds(db: Db, db2: Db, ro: FileSet, v: Id, owner: Option<(Id, Id)>, versionStatus: VersionStatus,
                  status: Status, now: Time) returns (d: Db)
    requires Inv(db2, ro) && OwnerOk(db2, owner) && (status == Succeeded || status == Failed)
    requires v < |db.versions| && db2.versions == db.versions[v := db.versions[v].(status := versionStatus)]
    requires db2.runs == db.runs && db2.workflows == db.workflows
    ensures EndOwner(db2, owner, status, now) == Ok(d) && Inv(d, ro) && Grows(db2, d) && d.projects == db2.projects
    ensures EndedWith(db, d, v, owner, versionStatus, status, now)
  {
    hide Inv, EndOwner, Grows;
    EndOwnerKeeps(db2, ro, owner, status, now);
    d := EndOwner(db2, owner, status, now).value;
  }

  lemma SwitchedKeeps(db: Db, ro: FileSet, v: Id, now: Time)
    requires Inv(db, ro) && v < |db.versions| && AppPasses(db.versions[v].files)
    requires db.versions[v].status == DraftVersion && db.versions[v].iteration < |db.iterations|
    requires db.versions[v].project < |db.projects|
    ensures Inv(Switched(db, v, now), ro) && Grows(db, Switched(db, v, now))
  {
    hide AppPasses, RunOk;
    var db1 := Settled(db, v, StableVersion);
    assert VersionOk(db, ro, v);
    SettledKeeps(db, ro, v, StableVersion);
    SwitchKeeps(db1, ro, db.versions[v].project, v, now);
    GrowsTransitive(db, db1, Switched(db, v, now));
  }

  /** Failing a draft never touches a stable pointer. */
  lemma FailDraftKeeps(db: Db, ro: FileSet, v: Id, owner: Option<(Id, Id)>, now: Time)
    requires Inv(db, ro) && v < |db.versions| && OwnerOk(db, owner)
    ensures var res := FailDraft(db, v, owner, now);
            res.Ok? && Inv(res.value.0, ro) && Grows(db, res.value.0) &&
            if db.versions[v].status != DraftVersion then res.value == (db, db.versions[v].status)
            else
              res.value.1 == FailedVersion && res.value.0.projects == db.projects &&
              EndedWith(db, res.value.0, v, owner, FailedVersion, Failed, now)
  {
    hide AppPasses, EndOwner, EndedWith, RunOk;
    assert VersionOk(db, ro, v);
    if db.versions[v].status == DraftVersion {
      var d := FailedKeeps(db, ro, v, owner, now);
      FailDraftIs(db, v, owner, now);
    }
  }

  lemma FailDraftIs(db: Db, v: Id, owner: Option<(Id, Id)>, now: Time)
    requires v < |db.versions| && db.versions[v].status == DraftVersion && db.versions[v].iteration < |db.iterations|
    requires EndOwner(Settled(db, v, FailedVersion), owner, Failed, now).Ok?
    ensures FailDraft(db, v, owner, now) == Ok((EndOwner(Settled(db, v, FailedVersion), owner, Failed, now).value, FailedVersion))
  {
  }

  lemma FailedKeeps(db: Db, ro: FileSet, v: Id, owner: Option<(Id, Id)>, now: Time) returns (d: Db)
    requires Inv(db, ro) && v < |db.versions| && OwnerOk(db, owner) && db.versions[v].status == DraftVersion
    requires db.versions[v].iteration < |db.iterations|
    ensures EndOwner(Settled(db, v, FailedVersion), owner, Failed, now) == Ok(d) && Inv(d, ro) && Grows(db, d)
    ensures d.projects == db.projects && EndedWith(db, d, v, owner, FailedVersion, Failed, now)
  {
    hide AppPasses, Inv, EndOwner, EndedWith, Grows;
    var db1 := Settled(db, v, FailedVersion);
    SettledKeeps(db, ro, v, FailedVersion);
    d := OwnerEnds(db, db1, ro, v, owner, FailedVersion, Failed, now);
    GrowsTransitive(db, db1, d);
  }

  /* ---- Manual edits and restores ---- */

  /** The iteration and the version an edit records, before the pointer moves. */
  ghost function EditRecorded(db: Db, p: Id, stable: Id, content: string): Db
    requires stable < |db.versions|
  {
    var pass := Gate.Passes(content);
    var version := Version(p, |db.iterations|, if pass then StableVersion else FailedVersion,
                           Override(db.versions[stable].files, content));
    db.(iterations := db.iterations + [Iteration(p, None, ManualIteration, Some(stable), Some(|db.versions|))],
        versions := db.versions + [version])
  }

  lemma EditRecordedKeeps(db: Db, ro: FileSet, p: Id, stable: Id, content: string)
    requires Inv(db, ro) && p < |db.projects| && StableOf(db, stable, p)
    ensures var d := EditRecorded(db, p, stable, content);
            Inv(d, ro) && Grows(db, d) && VersionOk(d, ro, |db.versions|)
  {
    hide Gate.Passes, RunOk;
    assert VersionOk(db, ro, stable);
    var d := EditRecorded(db, p, stable, content);
    var files := Override(db.versions[stable].files, content);
    assert files - {APP} == db.versions[stable].files - {APP};
    assert Grows(db, d);
    assert VersionOk(d, ro, |db.versions|);
    QuietKeeps(db, ro, d);
  }

  /** A passing edit makes its version stable and raises the project's state version by
      one; a failing one leaves pointer, workflows and runs alone. */
  lemma WriteFileKeeps(db: Db, ro: FileSet, p: Id, content: string, base: Option<Id>, now: Time)
    requires Inv(db, ro) && WriteFile(db, p, content, base, now).Ok?
    ensures p < |db.projects| && db.projects[p].stable.Some? && db.projects[p].stable.value < |db.versions| &&
            p in db.workflows
    ensures var (d, reply) := WriteFile(db, p, content, base, now).value;
            var stable := db.projects[p].stable.value;
            Inv(d, ro) && Grows(db, d) && d.runs == db.runs &&
            d.versions == EditRecorded(db, p, stable, content).versions &&
            d.iterations == EditRecorded(db, p, stable, content).iterations &&
            if Gate.Passes(content) then
              reply.status == 202 && d.projects == db.projects[p := Project(Some(|db.versions|), now)] &&
              d.workflows == db.workflows[p := db.workflows[p].(version := db.workflows[p].version + 1, updatedAt := now)]
            else reply.status == 422 && d.projects == db.projects && d.workflows == db.workflows
  {
    hide Gate.Passes, Grows, RunOk;
    assert ProjectOk(db, p);
    var stable := db.projects[p].stable.value;
    EditRecordedKeeps(db, ro, p, stable, content);
    var db1 := EditRecorded(db, p, stable, content);
    if Gate.Passes(content) {
      var v := |db.versions|;
      PublishKeeps(db1, ro, p, v, now);
      GrowsTransitive(db, db1, Published(db1, p, v, now));
    }
  }

  /** The version of an edit becomes the stable one. */
  function Published(db: Db, p: Id, v: Id, now: Time): Db
    requires p < |db.projects|
  {
    BumpSnapshot(db.(projects := db.projects[p := Project(Some(v), now)]), p, now)
  }

  lemma PublishKeeps(db: Db, ro: FileSet, p: Id, v: Id, now: Time)
    requires Inv(db, ro) && p < |db.projects| && StableOf(db, v, p)
    ensures Inv(Published(db, p, v, now), ro) && Grows(db, Published(db, p, v, now))
  {
    hide Inv, Grows;
    SwitchKeeps(db, ro, p, v, now);
    var db1 := db.(projects := db.projects[p := Project(Some(v), now)]);
    SnapshotKeeps(db1, ro, p, now);
    GrowsTransitive(db, db1, BumpSnapshot(db1, p, now));
  }

  /** Moved workflows alone keep the invariant. */
  lemma FlowsKeep(db: Db, ro: FileSet, ws: map<Id, Workflow>)
    requires Inv(db, ro) && SameFlows(db.workflows, ws)
    ensures var d := db.(workflows := ws); Inv(d, ro) && Grows(db, d)
  {
    hide VersionOk, Inv, IterationOk;
    var d := db.(workflows := ws);
    assert Grows(db, d);
    QuietKeeps(db, ro, d);
  }

  lemma SnapshotKeeps(db: Db, ro: FileSet, p: Id, now: Time)
    requires Inv(db, ro)
    ensures Inv(BumpSnapshot(db, p, now), ro) && Grows(db, BumpSnapshot(db, p, now))
  {
    hide Inv, Grows;
    FlowsKeep(db, ro, BumpSnapshot(db, p, now).workflows);
  }

  lemma RestoreKeeps(db: Db, ro: FileSet, p: Id, v: Id, now: Time)
    requires Inv(db, ro) && RestoreVersion(db, p, v, now).Ok?
    ensures var d := RestoreVersion(db, p, v, now).value.0;
            Inv(d, ro) && Grows(db, d) && d.runs == db.runs && d.workflows == db.workflows &&
            p < |db.projects| && d.projects == db.projects[p := Project(Some(v), now)] && StableOf(db, v, p)
  {
    hide VersionOk, Grows, RunOk;
    assert ProjectOk(db, p);
    var it := Iteration(p, None, RestoreIteration, db.projects[p].stable, Some(v));
    AddIterationKeeps(db, ro, it);
    var db1 := db.(iterations := db.iterations + [it]);
    SwitchKeeps(db1, ro, p, v, now);
    GrowsTransitive(db, db1, RestoreVersion(db, p, v, now).value.0);
  }
}
