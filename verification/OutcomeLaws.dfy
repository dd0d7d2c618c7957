/** What a client's request comes to (internal/store), read off the tables before it: when it
    is served, when it is refused and why, and which rows it leaves behind. */
module OutcomeLaws {
  import opened Prelude
  import opened Tables
  import opened Workflows
  import opened Operations
  import Gate

  /** A run of the project is queued or running. */
  ghost predicate RunGoesOn(db: Db, p: Id) {
    exists r :: 0 <= r < |db.runs| && db.runs[r].project == p &&
                (db.runs[r].status == Queued || db.runs[r].status == Running)
  }

  lemma GoesOnExactly(db: Db, p: Id)
    ensures HasActiveRun(db, p) <==> RunGoesOn(db, p)
  {
    if HasActiveRun(db, p) {
      var r :| 0 <= r < |db.runs| && ActiveIn(db, r, p);
      assert db.runs[r].project == p;
    }
    if RunGoesOn(db, p) {
      var r :| 0 <= r < |db.runs| && db.runs[r].project == p &&
               (db.runs[r].status == Queued || db.runs[r].status == Running);
      assert ActiveIn(db, r, p);
    }
  }

  /** The status a workflow shows for a run. */
  lemma FlowStatuses()
    ensures FlowOf(Queued) == FlowOf(Running) == RunningFlow && FlowOf(Succeeded) == CompletedFlow
    ensures FlowOf(Failed) == FailedFlow && FlowOf(Interrupted) == CancelledFlow
  {
  }

  /** Project `p` has a workflow, and the others have those they had. */
  ghost predicate FlowMoved(db: Db, d: Db, p: Id) {
    d.workflows.Keys == db.workflows.Keys + {p} &&
    forall q :: q in db.workflows && q != p ==> d.workflows[q] == db.workflows[q]
  }

  /** Workflows that point at run `r` have moved on by one version to the status; a project whose
      workflow is another run keeps it. */
  ghost predicate FlowsFollow(db: Db, d: Db, r: Id, status: WorkflowStatus, now: Time) {
    d.workflows.Keys == db.workflows.Keys &&
    forall p :: p in db.workflows ==>
      d.workflows[p] == if db.workflows[p].run == Some(r)
                        then Workflow(Some(r), status, db.workflows[p].version + 1, now) else db.workflows[p]
  }

  /* ---- Projects ---- */

  /** A new project has no preview, and its workflow is a draft at version 1 without a run. */
  lemma CreateProjectOutcome(db: Db, n: nat, now: Time)
    requires |db.projects| !in db.workflows
    ensures var res, p := CreateProject(db, n, now), |db.projects|;
            (res.Err? ==> res == Err(Invalid)) && (res.Err? <==> n < 1 || n > 4000) &&
            (res.Ok? ==>
              var (d, reply) := res.value;
              reply == Reply(201, ProjectBody(p)) && d == db.(projects := d.projects, workflows := d.workflows) &&
              d.projects == db.projects + [Project(None, now)] && FlowMoved(db, d, p) &&
              d.workflows[p] == Workflow(None, DraftFlow, 1, now))
  {
  }

  /* ---- Runs ---- */

  /** When a run is refused. */
  lemma CreateRunOutcome(db: Db, p: Id, n: nat, base: Option<Id>, canStart: bool, now: Time)
    ensures var res := CreateRun(db, p, n, base, canStart, now);
            (res == Err(Invalid) <==> n < 1 || n > 4000) &&
            (res == Err(NotFound) <==> 1 <= n <= 4000 && p >= |db.projects|) &&
            (res == Err(Conflict) <==>
              1 <= n <= 4000 && p < |db.projects| &&
              (RunGoesOn(db, p) || (base.Some? && base != db.projects[p].stable))) &&
            res != Err(Internal)
  {
    GoesOnExactly(db, p);
  }

  /** The rows of a new attempt: its four stages wait. */
  ghost predicate FourWait(stages: map<(nat, Stage), StageRow>, a: Id, sequence: nat, now: Time) {
    forall s: Stage :: (sequence, s) in stages && stages[(sequence, s)] == StageRow(Some(a), Waiting, None, None, now, None)
  }

  /** The row of a run that has just been made: one attempt with number 1. */
  ghost predicate IsNewRun(row: Run, p: Id, canStart: bool, stable: Option<Id>, now: Time) {
    var status := if canStart then Queued else Failed;
    row.project == p && row.status == status && row.base == stable &&
    row.activeAttempt == Some(0) && row.createdAt == row.updatedAt == now &&
    row.attempts == [Attempt(1, status)] && row.artifacts == [] &&
    (forall key :: key in row.stages ==> key.0 == 1) && FourWait(row.stages, 0, 1, now) &&
    row.log == if canStart then [] else [Event(1, RunFailed(None, "DEPENDENCY_UNAVAILABLE"), now)]
  }

  lemma NewRunIs(p: Id, canStart: bool, stable: Option<Id>, now: Time)
    ensures IsNewRun(NewRun(p, if canStart then Queued else Failed, stable, now), p, canStart, stable, now)
  {
    var row := NewRun(p, if canStart then Queued else Failed, stable, now);
    forall s: Stage ensures (1, s) in row.stages && row.stages[(1, s)] == StageRow(Some(0), Waiting, None, None, now, None) {
      match s case Pm => case Architect => case Engineer => case Qa =>
    }
  }

  /** What a served run leaves behind: its row with one attempt, its iteration, and the
      project's workflow, which now points at it one version later. */
  lemma CreateRunLeaves(db: Db, p: Id, n: nat, base: Option<Id>, canStart: bool, now: Time)
    requires CreateRun(db, p, n, base, canStart, now).Ok?
    ensures p < |db.projects|
    ensures var (d, reply) := CreateRun(db, p, n, base, canStart, now).value;
            var r, stable := |db.runs|, db.projects[p].stable;
            d == db.(runs := d.runs, workflows := d.workflows, iterations := d.iterations) &&
            |d.runs| == r + 1 && d.runs[..r] == db.runs && IsNewRun(d.runs[r], p, canStart, stable, now) &&
            d.iterations == db.iterations + [Iteration(p, Some(r), AgentIteration, stable, None)] &&
            FlowMoved(db, d, p) && d.workflows[p].run == Some(r) && d.workflows[p].updatedAt == now &&
            d.workflows[p].status == (if canStart then RunningFlow else FailedFlow) &&
            d.workflows[p].version == (if p in db.workflows then db.workflows[p].version else 0) + 1 &&
            reply == if canStart then Reply(202, RunBody(r)) else Reply(503, NoBody)
  {
    hide HasActiveRun, NewRun, IsNewRun;
    NewRunIs(p, canStart, db.projects[p].stable, now);
  }

  /** `k` is one more than the highest attempt number there is. */
  ghost predicate IsNextNumber(attempts: seq<Attempt>, k: nat) {
    k > 0 && (forall i :: 0 <= i < |attempts| ==> attempts[i].sequence < k) &&
    (k == 1 || exists i :: 0 <= i < |attempts| && attempts[i].sequence == k - 1)
  }

  /** What a served retry leaves behind: one more attempt, running and active, with its
      stages waiting; every workflow that points at the run is running one version later. */
  lemma RetryLeaves(db: Db, r: Id, now: Time)
    requires RetryRun(db, r, now).Ok? && db.runs[r].project in db.workflows
    ensures r < |db.runs|
    ensures var (d, reply) := RetryRun(db, r, now).value;
            d == db.(runs := d.runs, workflows := d.workflows) && |d.runs| == |db.runs| && d.runs == db.runs[r := d.runs[r]] &&
            reply == Reply(202, AttemptBody(r, |db.runs[r].attempts|)) && FlowsFollow(db, d, r, RunningFlow, now)
    ensures var (d, _) := RetryRun(db, r, now).value;
            var run, row, a := db.runs[r], d.runs[r], |db.runs[r].attempts|;
            |row.attempts| == a + 1 && row.attempts[..a] == run.attempts && row.attempts[a].status == Running &&
            IsNextNumber(run.attempts, row.attempts[a].sequence) &&
            row.status == Running && row.activeAttempt == Some(a) && row.updatedAt == now &&
            row.createdAt == run.createdAt && row.project == run.project && row.base == run.base &&
            row.artifacts == run.artifacts && row.log == run.log &&
            (forall key :: key in run.stages ==> key in row.stages && row.stages[key] == run.stages[key]) &&
            forall s: Stage :: var key := (row.attempts[a].sequence, s);
              key in row.stages &&
              (key !in run.stages ==> row.stages[key] == StageRow(Some(a), Waiting, None, None, now, None))
  {
    hide BreaksActiveIndex;
    var run, k := db.runs[r], MaxSequence(db.runs[r].attempts) + 1;
    var a := |run.attempts|;
    var stages := InitStages(run.stages, a, k, now);
    forall s: Stage ensures (k, s) in stages {
      match s case Pm => case Architect => case Engineer => case Qa =>
    }
  }

  /* ---- Manual edits and restores ---- */

  /** When a manual edit is refused: an oversized content is invalid, a missing project is not
      found, and an active run, a project without a preview or a base that is not the preview
      conflict.  Every other edit is served. */
  lemma WriteFileOutcome(db: Db, p: Id, content: string, base: Option<Id>, now: Time)
    ensures var res := WriteFile(db, p, content, base, now);
            (res == Err(Invalid) <==> |content| > 204800) &&
            (res == Err(NotFound) <==> |content| <= 204800 && p >= |db.projects|) &&
            (res == Err(Conflict) <==>
              |content| <= 204800 && p < |db.projects| &&
              (RunGoesOn(db, p) || db.projects[p].stable == None ||
               (base.Some? && base != db.projects[p].stable))) &&
            res != Err(Internal)
  {
    hide Gate.Passes;
    GoesOnExactly(db, p);
  }

  /** What a served edit leaves behind: an iteration on the preview and a version with the
      writable file replaced, stable and the new preview if the content passes the gate, failed
      if not; a passing edit moves the workflow on by one version and nothing else of it. */
  lemma WriteFileLeaves(db: Db, p: Id, content: string, base: Option<Id>, now: Time)
    requires WriteFile(db, p, content, base, now).Ok?
    requires db.projects[p].stable.value < |db.versions| && p in db.workflows
    ensures var (d, reply) := WriteFile(db, p, content, base, now).value;
            var it, v, stable, pass := |db.iterations|, |db.versions|, db.projects[p].stable, Gate.Passes(content);
            d.runs == db.runs && d.conflicts == db.conflicts &&
            d.iterations == db.iterations + [Iteration(p, None, ManualIteration, stable, Some(v))] &&
            |d.versions| == v + 1 && d.versions[..v] == db.versions &&
            d.versions[v].project == p && d.versions[v].iteration == it &&
            d.versions[v].status == (if pass then StableVersion else FailedVersion) &&
            d.projects == (if pass then db.projects[p := Project(Some(v), now)] else db.projects) &&
            reply == (if pass then Reply(202, IterationBody(it)) else Reply(422, CompileErrors)) &&
            FlowMoved(db, d, p) &&
            var w, x := db.workflows[p], d.workflows[p];
            if pass then x == Workflow(w.run, w.status, w.version + 1, now) else x == w
    ensures var (d, _) := WriteFile(db, p, content, base, now).value;
            var files, before := d.versions[|db.versions|].files, db.versions[db.projects[p].stable.value].files;
            files.Keys == before.Keys + {"/src/App.tsx"} && files["/src/App.tsx"] == File(content, false) &&
            forall path :: path in before && path != "/src/App.tsx" ==> files[path] == before[path]
  {
    hide Gate.Passes, HasActiveRun;
  }

  /** When a restore is refused: a version that is missing or another project's is not found,
      one that is not stable conflicts, and so does an active run. */
  lemma RestoreOutcome(db: Db, p: Id, v: Id, now: Time)
    ensures var res := RestoreVersion(db, p, v, now);
            var there := v < |db.versions| && db.versions[v].project == p;
            (res == Err(Conflict) <==> there && (db.versions[v].status != StableVersion || RunGoesOn(db, p))) &&
            (res == Err(NotFound) <==>
              !there || (db.versions[v].status == StableVersion && !RunGoesOn(db, p) && p >= |db.projects|)) &&
            res != Err(Internal) && res != Err(Invalid)
  {
    GoesOnExactly(db, p);
  }

  /** What a served restore leaves behind. */
  lemma RestoreLeaves(db: Db, p: Id, v: Id, now: Time)
    requires RestoreVersion(db, p, v, now).Ok?
    ensures p < |db.projects|
    ensures var (d, reply) := RestoreVersion(db, p, v, now).value;
            d == db.(iterations := d.iterations, projects := d.projects) &&
            d.iterations == db.iterations + [Iteration(p, None, RestoreIteration, db.projects[p].stable, Some(v))] &&
            d.projects == db.projects[p := Project(Some(v), now)] && reply == Reply(202, IterationBody(|db.iterations|))
  {
  }

  /* ---- The agent's writes to a run ---- */

  /** What the start of an attempt leaves behind. */
  lemma BeginLeaves(db: Db, r: Id, a: Id, now: Time)
    requires BeginAttempt(db, r, a, now).Ok? && db.runs[r].project in db.workflows
    ensures r < |db.runs|
    ensures var d := BeginAttempt(db, r, a, now).value;
            var run, row := db.runs[r], d.runs[r];
            |d.runs| == |db.runs| && d.runs == db.runs[r := row] && FlowsFollow(db, d, r, RunningFlow, now) &&
            row == run.(status := Running, updatedAt := now, attempts := row.attempts) &&
            |row.attempts| == |run.attempts| &&
            forall k :: 0 <= k < |run.attempts| ==>
              row.attempts[k] == if k == a && run.attempts[k].status == Queued then Attempt(run.attempts[k].sequence, Running)
                                 else run.attempts[k]
  {
    hide BreaksActiveIndex;
  }

  /** What the failure of a run leaves behind: its queued and running attempts have failed too. */
  lemma FailRunLeaves(db: Db, r: Id, now: Time)
    requires r < |db.runs| && db.runs[r].project in db.workflows
    ensures FailRun(db, r, now).Ok?
    ensures var d := FailRun(db, r, now).value;
            var run, row := db.runs[r], d.runs[r];
            |d.runs| == |db.runs| && d.runs == db.runs[r := row] && FlowsFollow(db, d, r, FailedFlow, now) &&
            row == run.(status := Failed, activeAttempt := None, updatedAt := now, attempts := row.attempts) &&
            |row.attempts| == |run.attempts| &&
            forall k :: 0 <= k < |run.attempts| ==>
              row.attempts[k] == if run.attempts[k].status == Queued || run.attempts[k].status == Running
                                 then Attempt(run.attempts[k].sequence, Failed) else run.attempts[k]
  {
  }

  /** What the end of a draft leaves behind: a promoted one is stable, its iteration's result and
      the preview; a failed one leaves the preview alone.  The run that made it has ended with
      its attempt, and a workflow that points at it says so. */
  ghost predicate DraftSettled(db: Db, d: Db, v: Id, owner: Option<(Id, Id)>, promoted: bool, now: Time)
    requires v < |db.versions| && db.versions[v].iteration < |db.iterations|
  {
    var version, it := db.versions[v], db.versions[v].iteration;
    d.conflicts == db.conflicts &&
    d.versions == db.versions[v := version.(status := if promoted then StableVersion else FailedVersion)] &&
    d.iterations == db.iterations[it := db.iterations[it].(result := Some(v))] &&
    (if promoted then version.project < |db.projects| && d.projects == db.projects[version.project := Project(Some(v), now)]
     else d.projects == db.projects) &&
    match owner
    case None => d.runs == db.runs && d.workflows == db.workflows
    case Some((r, a)) =>
      r < |db.runs| == |d.runs| && d.runs == db.runs[r := d.runs[r]] &&
      FlowsFollow(db, d, r, if promoted then CompletedFlow else FailedFlow, now) &&
      AttemptEnded(db.runs[r], d.runs[r], a, if promoted then Succeeded else Failed, now)
  }

  /** The run and its attempt `a` have ended with the status. */
  ghost predicate AttemptEnded(run: Run, row: Run, a: Id, status: Status, now: Time) {
    row == run.(status := status, activeAttempt := None, updatedAt := now, attempts := row.attempts) &&
    |row.attempts| == |run.attempts| &&
    forall k :: 0 <= k < |run.attempts| ==>
      row.attempts[k] == if k == a then Attempt(run.attempts[k].sequence, status) else run.attempts[k]
  }

  /** Promotion of a draft succeeds exactly when the preview is still the iteration's base;
      otherwise it conflicts. */
  lemma PromoteOutcome(db: Db, v: Id, owner: Option<(Id, Id)>, now: Time)
    requires v < |db.versions| && db.versions[v].status == DraftVersion && db.versions[v].iteration < |db.iterations|
    requires owner.Some? ==> owner.value.0 < |db.runs| && db.runs[owner.value.0].project in db.workflows
    ensures var res, p := Promote(db, v, owner, now), db.versions[v].project;
            if p < |db.projects| && db.projects[p].stable == db.iterations[db.versions[v].iteration].base
            then res.Ok? && res.value.1 == StableVersion && DraftSettled(db, res.value.0, v, owner, true, now)
            else res == Err(Conflict)
  {
  }

  /** The failure of a draft always goes through. */
  lemma FailDraftOutcome(db: Db, v: Id, owner: Option<(Id, Id)>, now: Time)
    requires v < |db.versions| && db.versions[v].status == DraftVersion && db.versions[v].iteration < |db.iterations|
    requires owner.Some? ==> owner.value.0 < |db.runs| && db.runs[owner.value.0].project in db.workflows
    ensures var res := FailDraft(db, v, owner, now);
            res.Ok? && res.value.1 == FailedVersion && DraftSettled(db, res.value.0, v, owner, false, now)
  {
  }

  /* ---- Artifacts and drafts ---- */

  ghost predicate GoesOn(attempts: seq<Attempt>, k: nat) {
    k < |attempts| && (attempts[k].status == Queued || attempts[k].status == Running)
  }

  /** The attempt that events are booked on: of the queued and running ones the one with the
      highest number, and of all if there are none. */
  lemma FavouredExactly(attempts: seq<Attempt>, a: Id)
    ensures IsFavoured(attempts, a) <==>
            a < |attempts| &&
            if exists k: nat :: GoesOn(attempts, k)
            then GoesOn(attempts, a) && forall k: nat :: GoesOn(attempts, k) ==> attempts[k].sequence <= attempts[a].sequence
            else forall k :: 0 <= k < |attempts| ==> attempts[k].sequence <= attempts[a].sequence
  {
    forall k: nat | k < |attempts| && a < |attempts|
      ensures Preferred(attempts, k, a) <==>
              if GoesOn(attempts, k) != GoesOn(attempts, a) then GoesOn(attempts, k)
              else attempts[k].sequence > attempts[a].sequence
    {
    }
    if IsFavoured(attempts, a) {
      forall k: nat | GoesOn(attempts, k) ensures GoesOn(attempts, a) && attempts[k].sequence <= attempts[a].sequence {
        assert !Preferred(attempts, k, a);
      }
      forall k: nat | k < |attempts| ensures GoesOn(attempts, k) == GoesOn(attempts, a) ==> attempts[k].sequence <= attempts[a].sequence {
        assert !Preferred(attempts, k, a);
      }
    }
  }

  /** An artifact is recorded for an attempt there is: it is stored, its stage has succeeded, and
      a workflow that points at the run is running. */
  lemma ArtifactOutcome(db: Db, r: Id, a: Id, stage: Stage, ref: string, now: Time)
    requires r < |db.runs| ==> db.runs[r].project in db.workflows
    ensures var res := RecordArtifact(db, r, a, stage, ref, now);
            if r < |db.runs| && a < |db.runs[r].attempts| then
              res.Ok? &&
              var run, d := db.runs[r], res.value;
              |d.runs| == |db.runs| && d.runs == db.runs[r := d.runs[r]] && FlowsFollow(db, d, r, RunningFlow, now) &&
              d.runs[r].artifacts == run.artifacts + [Artifact(a, stage, ref, now)] &&
              StageWritten(run.(artifacts := d.runs[r].artifacts), d.runs[r], (run.attempts[a].sequence, stage), Done, now, None)
            else res == Err(NotFound)
  {
  }

  /** Attempt `a` is the first with the number. */
  ghost predicate IsFirstWith(attempts: seq<Attempt>, sequence: nat, a: nat) {
    a < |attempts| && attempts[a].sequence == sequence && forall k :: 0 <= k < a ==> attempts[k].sequence != sequence
  }

  lemma {:induction false} FirstWith(attempts: seq<Attempt>, sequence: nat, a: nat)
    requires IsFirstWith(attempts, sequence, a)
    ensures AttemptWithSequence(attempts, sequence) == Some(a)
  {
    var last := |attempts| - 1;
    if a < last {
      FirstWith(attempts[..last], sequence, a);
    } else {
      assert AttemptWithSequence(attempts[..last], sequence) == None;
    }
  }

  /** A compile result is recorded for the attempt with the number it names, unless that attempt
      has a result with the same reference; without such an attempt it is not found. */
  lemma CompileResultOutcome(db: Db, r: Id, sequence: nat, ref: string, now: Time, a: nat)
    ensures var res := RecordCompileResult(db, r, sequence, ref, now);
            if r >= |db.runs| || forall k :: 0 <= k < |db.runs[r].attempts| ==> db.runs[r].attempts[k].sequence != sequence
            then res == Err(NotFound)
            else IsFirstWith(db.runs[r].attempts, sequence, a) ==>
                   if exists x :: x in db.runs[r].artifacts && x.attempt == a && x.stage == Qa && x.ref == ref
                   then res == Ok(db)
                   else res == RecordArtifact(db, r, a, Qa, ref, now)
  {
    hide RecordArtifact;
    if r < |db.runs| && IsFirstWith(db.runs[r].attempts, sequence, a) {
      FirstWith(db.runs[r].attempts, sequence, a);
    }
  }

  lemma {:induction false} FilesAre(files: seq<Snapshot>)
    requires DistinctPaths(files)
    ensures forall i :: 0 <= i < |files| ==> files[i].path in FileSetOf(files) && FileSetOf(files)[files[i].path] == files[i].file
    ensures forall path :: path in FileSetOf(files) ==> exists i :: 0 <= i < |files| && files[i].path == path
    decreases |files|
  {
    if files != [] {
      var last := |files| - 1;
      FilesAre(files[..last]);
      forall i | 0 <= i < last ensures files[..last][i] == files[i] {
      }
    }
  }

  /** A draft is stored for an iteration there is, with just the files given; a project that is
      missing or a path that is given twice aborts. */
  lemma CreateDraftOutcome(db: Db, p: Id, it: Id, files: seq<Snapshot>)
    ensures var res, repeated := CreateDraft(db, p, it, files),
                                 exists i, j :: 0 <= i < j < |files| && files[i].path == files[j].path;
            (res == Err(NotFound) <==> it >= |db.iterations|) &&
            (res == Err(Internal) <==> it < |db.iterations| && (p >= |db.projects| || repeated)) &&
            (res.Err? ==> res == Err(NotFound) || res == Err(Internal)) &&
            (res.Ok? ==>
              var (d, v) := res.value;
              v == |db.versions| && d == db.(versions := d.versions) && |d.versions| == v + 1 && d.versions[..v] == db.versions &&
              d.versions[v].project == p && d.versions[v].iteration == it && d.versions[v].status == DraftVersion &&
              (forall i :: 0 <= i < |files| ==>
                files[i].path in d.versions[v].files && d.versions[v].files[files[i].path] == files[i].file) &&
              forall path :: path in d.versions[v].files ==> exists i :: 0 <= i < |files| && files[i].path == path)
  {
    if DistinctPaths(files) {
      FilesAre(files);
    }
  }
}
