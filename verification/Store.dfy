/** The store as it runs: one object whose tables each transaction updates statement by
    statement (internal/store).  Every method is proved to have exactly the effect its
    function in Operations or Reading describes; an error leaves the tables as they were. */
module Stores {
  import opened Prelude
  import opened Tables
  import opened Workflows
  import opened Operations
  import opened Lineage
  import opened Reading
  import Gate

  class Store {
    var db: Db

    constructor ()
      ensures db == EMPTY
    {
      db := EMPTY;
    }

    /* ---- Workflow rows ---- */

    method PointProjectWorkflow(p: Id, r: Id, status: WorkflowStatus, now: Time)
      modifies this
      ensures db == Point(old(db), p, r, status, now)
    {
      var version := 1;
      if p in db.workflows {
        version := db.workflows[p].version + 1;
      }
      db := db.(workflows := db.workflows[p := Workflow(Some(r), status, version, now)]);
    }

    method BumpWorkflowForRun(r: Id, status: WorkflowStatus, now: Time) returns (ok: bool)
      modifies this
      ensures ok == Bump(old(db), r, status, now).Ok?
      ensures if ok then db == Bump(old(db), r, status, now).value else db == old(db)
    {
      if PointedAt(db.workflows, r) {
        db := db.(workflows := Advanced(db.workflows, r, status, now));
        return true;
      }
      if r >= |db.runs| {
        return false;
      }
      var p := db.runs[r].project;
      if p in db.workflows {
        // A late write of an older run must not move the pointer back.
        return true;
      }
      PointProjectWorkflow(p, r, status, now);
      ok := true;
    }

    method InitAttemptStages(r: Id, a: Id, sequence: nat, now: Time)
      requires r < |db.runs|
      modifies this
      ensures db == old(db).(runs := old(db).runs[r := old(db).runs[r].(
                      stages := InitStages(old(db).runs[r].stages, a, sequence, now))])
    {
      var run := db.runs[r];
      var stages := run.stages;
      var row := StageRow(Some(a), Waiting, None, None, now, None);
      for k := 0 to |STAGES|
        invariant stages == InitFirst(run.stages, a, sequence, now, k)
      {
        var key := (sequence, STAGES[k]);
        if key !in stages {
          stages := stages[key := row];
        }
      }
      InitFirstIsAll(run.stages, a, sequence, now);
      db := db.(runs := db.runs[r := run.(stages := stages)]);
    }

    method SetStageState(r: Id, stage: Stage, status: StageStatus, now: Time, code: Option<string>) returns (ok: bool)
      modifies this
      ensures ok == OnActiveAttempt(old(db), r, stage, status, now, code).Ok?
      ensures if ok then db == OnActiveAttempt(old(db), r, stage, status, now, code).value else db == old(db)
      ensures ok <==> r < |old(db).runs| && old(db).runs[r].attempts != []
      ensures ok ==> StageBooked(old(db), db, r, stage, status, now, code)
    {
      OnActiveAttemptBooks(db, r, stage, status, now, code);
      if r >= |db.runs| {
        return false;
      }
      var a := ActiveAttempt(db.runs[r].attempts);
      if a.None? {
        return false;
      }
      var sequence := db.runs[r].attempts[a.value].sequence;
      db := db.(runs := db.runs[r := SetStage(db.runs[r], a.value, sequence, stage, status, now, code)]);
      ok := true;
    }

    method ApplyWorkflowEvent(r: Id, kind: EventKind, now: Time) returns (ok: bool)
      modifies this
      ensures ok == ApplyEvent(old(db), r, kind, now).Ok?
      ensures ok ==> db == ApplyEvent(old(db), r, kind, now).value
    {
      hide OnActiveAttempt, StageBooked, Bump;
      match kind
      case RunStarted => ok := BumpWorkflowForRun(r, RunningFlow, now);
      case StageStarted(stage) =>
        ok := SetStageState(r, stage, InProgress, now, None);
        if ok {
          ok := BumpWorkflowForRun(r, RunningFlow, now);
        }
      case StageArtifact(stage) =>
        ok := SetStageState(r, stage, StageStatus.Done, now, None);
        if ok {
          ok := BumpWorkflowForRun(r, RunningFlow, now);
        }
      case RunFailed(stage, code) =>
        ok := true;
        if stage.Some? {
          ok := SetStageState(r, stage.value, Broken, now, if code == "" then None else Some(code));
        }
        if ok {
          ok := BumpWorkflowForRun(r, FailedFlow, now);
        }
      case RunCompleted => ok := BumpWorkflowForRun(r, CompletedFlow, now);
      case MessageDelta => ok := true;
      case FileWritten => ok := true;
      case PreviewReady => ok := true;
    }

    /* ---- Projects and runs ---- */

    method CreateProject(promptChars: nat, now: Time) returns (res: Result<Reply>)
      modifies this
      ensures match Operations.CreateProject(old(db), promptChars, now)
              case Ok((d, reply)) => db == d && res == Ok(reply)
              case Err(e) => db == old(db) && res == Err(e)
    {
      if promptChars < PROMPT_MIN_CHARS || promptChars > PROMPT_MAX_CHARS {
        return Err(Invalid);
      }
      var p := |db.projects|;
      db := db.(projects := db.projects + [Project(None, now)]);
      if p !in db.workflows {
        db := db.(workflows := db.workflows[p := Workflow(None, DraftFlow, 1, now)]);
      } else {
        assert db.workflows[p := db.workflows[p]] == db.workflows;
      }
      res := Ok(Reply(201, ProjectBody(p)));
    }

    method CreateRun(p: Id, promptChars: nat, base: Option<Id>, canStart: bool, now: Time) returns (res: Result<Reply>)
      modifies this
      ensures match Operations.CreateRun(old(db), p, promptChars, base, canStart, now)
              case Ok((d, reply)) => db == d && res == Ok(reply)
              case Err(e) => db == old(db) && res == Err(e)
    {
      if promptChars < PROMPT_MIN_CHARS || promptChars > PROMPT_MAX_CHARS {
        return Err(Invalid);
      }
      if p >= |db.projects| {
        return Err(NotFound);
      }
      var stable := db.projects[p].stable;
      if base.Some? && stable != base {
        return Err(Conflict);
      }
      if HasActiveRun(db, p) {
        return Err(Conflict);
      }
      var r := |db.runs|;
      var status := if canStart then Queued else Failed;
      var run := Run(p, status, stable, None, now, now, [], map[], [], []);
      if run.status.Active() && HasActiveRun(db, p) {
        return Err(Internal);
      }
      db := db.(runs := db.runs + [run]);
      db := db.(runs := db.runs[r := db.runs[r].(attempts := [Attempt(1, status)])]);
      db := db.(runs := db.runs[r := db.runs[r].(activeAttempt := Some(0))]);
      InitAttemptStages(r, 0, 1, now);
      ghost var row := db.runs[r];
      PointProjectWorkflow(p, r, FlowOf(status), now);
      db := db.(iterations := db.iterations + [Iteration(p, Some(r), AgentIteration, stable, None)]);
      if !canStart {
        var event := Event(MaxEventSeq(db.runs[r].log) + 1, RunFailed(None, "DEPENDENCY_UNAVAILABLE"), now);
        db := db.(runs := db.runs[r := db.runs[r].(log := db.runs[r].log + [event])]);
      }
      assert db.runs[r] == NewRun(p, status, stable, now);
      assert db.runs == old(db).runs + [NewRun(p, status, stable, now)];
      res := Ok(if canStart then Reply(202, RunBody(r)) else Reply(503, NoBody));
    }

    method RetryRun(r: Id, now: Time) returns (res: Result<Reply>)
      modifies this
      ensures match Operations.RetryRun(old(db), r, now)
              case Ok((d, reply)) => db == d && res == Ok(reply)
              case Err(e) => db == old(db) && res == Err(e)
    {
      if r >= |db.runs| {
        return Err(NotFound);
      }
      var run := db.runs[r];
      if run.status != Failed && run.status != Interrupted {
        return Err(Conflict);
      }
      var saved := db;
      var a := |run.attempts|;
      var sequence := MaxSequence(run.attempts) + 1;
      db := db.(runs := db.runs[r := run.(attempts := run.attempts + [Attempt(sequence, Running)])]);
      var row := db.runs[r].(activeAttempt := Some(a), status := Running, updatedAt := now);
      if BreaksActiveIndex(db, r, row) {
        assert BreaksActiveIndex(saved, r, row) by { SameActive(saved, db, r, row); }
        db := saved;
        return Err(Internal);
      }
      SameActive(saved, db, r, row);
      db := db.(runs := db.runs[r := row]);
      InitAttemptStages(r, a, sequence, now);
      var ok := BumpWorkflowForRun(r, RunningFlow, now);
      assert ok;  // the run exists
      res := Ok(Reply(202, AttemptBody(r, a)));
    }

    method RecordStageArtifact(r: Id, a: Id, stage: Stage, ref: string, now: Time) returns (res: Result<()>)
      modifies this
      ensures match RecordArtifact(old(db), r, a, stage, ref, now)
              case Ok(d) => db == d && res == Ok(())
              case Err(e) => db == old(db) && res == Err(e)
    {
      hide SetStage;
      if r >= |db.runs| || a >= |db.runs[r].attempts| {
        return Err(NotFound);
      }
      var sequence := db.runs[r].attempts[a].sequence;
      db := db.(runs := db.runs[r := db.runs[r].(artifacts := db.runs[r].artifacts + [Artifact(a, stage, ref, now)])]);
      db := db.(runs := db.runs[r := SetStage(db.runs[r], a, sequence, stage, StageStatus.Done, now, None)]);
      var ok := BumpWorkflowForRun(r, RunningFlow, now);
      assert ok;  // the run exists
      res := Ok(());
    }

    /** The compile-result callback records each result of an attempt once, if no other
        callback comes between its look and its write. */
    method RecordCompileResult(r: Id, sequence: nat, ref: string, now: Time) returns (res: Result<()>)
      modifies this
      ensures match Operations.RecordCompileResult(old(db), r, sequence, ref, now)
              case Ok(d) => db == d && res == Ok(())
              case Err(e) => db == old(db) && res == Err(e)
    {
      var known := FindCompileResult(r, sequence, ref);
      res := FinishCompileResult(r, sequence, ref, known, now);
    }

    /** The callback's look, outside the transaction that writes. */
    method FindCompileResult(r: Id, sequence: nat, ref: string) returns (known: bool)
      ensures known == KnownResult(db, r, sequence, ref)
    {
      if r >= |db.runs| {
        return false;
      }
      var a := AttemptWithSequence(db.runs[r].attempts, sequence);
      known := a.Some? && exists x | x in db.runs[r].artifacts :: x.attempt == a.value && x.stage == Qa && x.ref == ref;
    }

    /** The callback's write, after a look that may be out of date. */
    method FinishCompileResult(r: Id, sequence: nat, ref: string, known: bool, now: Time) returns (res: Result<()>)
      modifies this
      ensures match CompileResult(old(db), r, sequence, ref, known, now)
              case Ok(d) => db == d && res == Ok(())
              case Err(e) => db == old(db) && res == Err(e)
    {
      if r >= |db.runs| {
        return Err(NotFound);
      }
      var a := AttemptWithSequence(db.runs[r].attempts, sequence);
      if a.None? {
        return Err(NotFound);
      }
      if known {
        return Ok(());
      }
      res := RecordStageArtifact(r, a.value, Qa, ref, now);
    }

    method AppendEvent(r: Id, kind: EventKind, now: Time) returns (res: Result<nat>)
      modifies this
      ensures match Operations.AppendEvent(old(db), r, kind, now)
              case Ok(d) => db == d && res == Ok(MaxEventSeq(old(db).runs[r].log) + 1)
              case Err(e) => db == old(db) && res == Err(e)
    {
      hide SetStage;
      if r >= |db.runs| {
        return Err(Internal);
      }
      var saved := db;
      var n := MaxEventSeq(db.runs[r].log) + 1;
      db := db.(runs := db.runs[r := db.runs[r].(log := db.runs[r].log + [Event(n, kind, now)])]);
      var ok := ApplyWorkflowEvent(r, kind, now);
      if !ok {
        db := saved;
        return Err(Internal);
      }
      res := Ok(n);
    }

    /** Start-up: every active run becomes interrupted. */
    method MarkActiveRunsInterrupted(now: Time) returns (res: Result<()>)
      modifies this
      ensures match MarkInterrupted(old(db), now)
              case Ok(d) => db == d && res == Ok(())
              case Err(e) => db == old(db) && res == Err(e)
    {
      hide CancelStages;
      var saved := db;
      for r := 0 to |saved.runs|
        invariant CancelActive(saved, r, now) == Ok(db) && |db.runs| == |saved.runs|
      {
        if db.runs[r].status.Active() {
          db := db.(runs := db.runs[r := CancelStages(db.runs[r], now)]);
          var ok := BumpWorkflowForRun(r, CancelledFlow, now);
          assert ok;  // the run exists
        }
      }
      db := db.(runs := seq(|db.runs|, i requires 0 <= i < |db.runs| reads this => InterruptedRun(db.runs[i], now)));
      res := Ok(());
    }

    /* ---- Versions ---- */

    method CreateDraftVersion(p: Id, it: Id, files: seq<Snapshot>) returns (res: Result<Id>)
      modifies this
      ensures match CreateDraft(old(db), p, it, files)
              case Ok((d, v)) => db == d && res == Ok(v)
              case Err(e) => db == old(db) && res == Err(e)
    {
      if it >= |db.iterations| {
        return Err(NotFound);
      }
      if p >= |db.projects| {
        return Err(Internal);
      }
      var saved := db;
      var v := |db.versions|;
      db := db.(versions := db.versions + [Version(p, it, DraftVersion, map[])]);
      for k := 0 to |files|
        invariant DistinctPaths(files[..k])
        invariant db == saved.(versions := saved.versions + [Version(p, it, DraftVersion, FileSetOf(files[..k]))])
        invariant forall path :: path in FileSetOf(files[..k]) <==> exists j :: 0 <= j < k && files[j].path == path
      {
        assert files[..k + 1][..k] == files[..k];
        if files[k].path in db.versions[v].files {
          // two files of one version may not share a path
          var j :| 0 <= j < k && files[j].path == files[k].path;
          db := saved;
          return Err(Internal);
        }
        var row := db.versions[v];
        db := db.(versions := db.versions[v := row.(files := row.files[files[k].path := files[k].file])]);
      }
      assert files[..|files|] == files;
      res := Ok(v);
    }

    /** Marks the run that owns a version, and its attempt, as ended. */
    method EndOwner(owner: Option<(Id, Id)>, status: Status, now: Time) returns (ok: bool)
      modifies this
      ensures ok == Operations.EndOwner(old(db), owner, status, now).Ok?
      ensures ok ==> db == Operations.EndOwner(old(db), owner, status, now).value
    {
      if owner.None? {
        return true;
      }
      var (r, a) := owner.value;
      if r >= |db.runs| {
        return false;
      }
      var run := db.runs[r].(status := status, activeAttempt := None, updatedAt := now);
      if a < |run.attempts| {
        run := run.(attempts := run.attempts[a := run.attempts[a].(status := status)]);
      }
      db := db.(runs := db.runs[r := run]);
      ok := BumpWorkflowForRun(r, FlowOf(status), now);
    }

    method PromoteDraftVersion(v: Id, owner: Option<(Id, Id)>, now: Time) returns (res: Result<VersionStatus>)
      modifies this
      ensures match Promote(old(db), v, owner, now)
              case Ok((d, status)) => db == d && res == Ok(status)
              case Err(e) => db == old(db) && res == Err(e)
    {
      if v >= |db.versions| {
        return Err(NotFound);
      }
      var version := db.versions[v];
      if version.status != DraftVersion {
        return Ok(version.status);
      }
      if version.iteration >= |db.iterations| {
        return Err(NotFound);
      }
      var it := db.iterations[version.iteration];
      var saved := db;
      db := db.(versions := db.versions[v := version.(status := StableVersion)]);
      db := db.(iterations := db.iterations[version.iteration := it.(result := Some(v))]);
      if version.project >= |db.projects| || db.projects[version.project].stable != it.base {
        db := saved;
        return Err(Conflict);
      }
      db := db.(projects := db.projects[version.project := Project(Some(v), now)]);
      var ok := EndOwner(owner, Succeeded, now);
      if !ok {
        db := saved;
        return Err(Internal);
      }
      res := Ok(StableVersion);
    }

    method FailDraftVersion(v: Id, owner: Option<(Id, Id)>, now: Time) returns (res: Result<VersionStatus>)
      modifies this
      ensures match FailDraft(old(db), v, owner, now)
              case Ok((d, status)) => db == d && res == Ok(status)
              case Err(e) => db == old(db) && res == Err(e)
    {
      if v >= |db.versions| {
        return Err(NotFound);
      }
      var version := db.versions[v];
      if version.status != DraftVersion {
        return Ok(version.status);
      }
      var saved := db;
      db := db.(versions := db.versions[v := version.(status := FailedVersion)]);
      if version.iteration < |db.iterations| {
        var it := db.iterations[version.iteration];
        db := db.(iterations := db.iterations[version.iteration := it.(result := Some(v))]);
      }
      var ok := EndOwner(owner, Failed, now);
      if !ok {
        db := saved;
        return Err(Internal);
      }
      res := Ok(FailedVersion);
    }

    method BeginAttempt(r: Id, a: Id, now: Time) returns (res: Result<()>)
      modifies this
      ensures match Operations.BeginAttempt(old(db), r, a, now)
              case Ok(d) => db == d && res == Ok(())
              case Err(e) => db == old(db) && res == Err(e)
    {
      if r >= |db.runs| {
        return Err(Internal);
      }
      var saved := db;
      var run := db.runs[r];
      if a < |run.attempts| && run.attempts[a].status == Queued {
        run := run.(attempts := run.attempts[a := run.attempts[a].(status := Running)]);
      }
      run := run.(status := Running, updatedAt := now);
      if BreaksActiveIndex(db, r, run) {
        return Err(Internal);
      }
      db := db.(runs := db.runs[r := run]);
      var ok := BumpWorkflowForRun(r, RunningFlow, now);
      assert ok;  // the run exists
      res := Ok(());
    }

    method FailRun(r: Id, now: Time) returns (res: Result<()>)
      modifies this
      ensures match Operations.FailRun(old(db), r, now)
              case Ok(d) => db == d && res == Ok(())
              case Err(e) => db == old(db) && res == Err(e)
    {
      if r >= |db.runs| {
        return Err(Internal);
      }
      db := db.(runs := db.runs[r := db.runs[r].(attempts := FailedAttempts(db.runs[r].attempts))]);
      db := db.(runs := db.runs[r := db.runs[r].(status := Failed, activeAttempt := None, updatedAt := now)]);
      var ok := BumpWorkflowForRun(r, FailedFlow, now);
      assert ok;  // the run exists
      res := Ok(());
    }

    /** A manual edit of the writable file. */
    method WriteFile(p: Id, content: string, base: Option<Id>, now: Time) returns (res: Result<Reply>)
      modifies this
      ensures match Operations.WriteFile(old(db), p, content, base, now)
              case Ok((d, reply)) => db == d && res == Ok(reply)
              case Err(e) => db == old(db) && res == Err(e)
    {
      hide Gate.FindingsOf, Gate.Passes, Gate.Problems;
      if |content| > Gate.FILE_CONTENT_MAX_BYTES {
        return Err(Invalid);
      }
      if p >= |db.projects| {
        return Err(NotFound);
      }
      if HasActiveRun(db, p) {
        return Err(Conflict);
      }
      if db.projects[p].stable.None? {
        return Err(Conflict);
      }
      if base.Some? && db.projects[p].stable != base {
        return Err(Conflict);
      }
      var stable := db.projects[p].stable.value;
      var files := if stable < |db.versions| then db.versions[stable].files else map[];
      files := files[APP := File(content, false)];
      var pass, errs := Gate.Validate(content);
      var i, v := |db.iterations|, |db.versions|;
      InsertEdit(p, stable, files, if pass then StableVersion else FailedVersion);
      if pass {
        db := db.(projects := db.projects[p := Project(Some(v), now)]);
        BumpProjectSnapshot(p, now);
        return Ok(Reply(202, IterationBody(i)));
      }
      res := Ok(Reply(422, CompileErrors));
    }

    /** The rows of an edit; its version has the status of the verdict in the end. */
    method InsertEdit(p: Id, stable: Id, files: FileSet, status: VersionStatus)
      modifies this
      ensures var i, v := |old(db).iterations|, |old(db).versions|;
              db == old(db).(iterations := old(db).iterations + [Iteration(p, None, ManualIteration, Some(stable), Some(v))],
                             versions := old(db).versions + [Version(p, i, status, files)])
    {
      var i, v := |db.iterations|, |db.versions|;
      db := db.(iterations := db.iterations + [Iteration(p, None, ManualIteration, Some(stable), None)]);
      db := db.(versions := db.versions + [Version(p, i, DraftVersion, files)]);
      db := db.(iterations := db.iterations[i := db.iterations[i].(result := Some(v))]);
      db := db.(versions := db.versions[v := db.versions[v].(status := status)]);
    }

    method BumpProjectSnapshot(p: Id, now: Time)
      modifies this
      ensures db == BumpSnapshot(old(db), p, now)
    {
      if p in db.workflows {
        var w := db.workflows[p];
        db := db.(workflows := db.workflows[p := w.(version := w.version + 1, updatedAt := now)]);
      }
    }

    method RestoreVersion(p: Id, v: Id, now: Time) returns (res: Result<Reply>)
      modifies this
      ensures match Operations.RestoreVersion(old(db), p, v, now)
              case Ok((d, reply)) => db == d && res == Ok(reply)
              case Err(e) => db == old(db) && res == Err(e)
    {
      if v >= |db.versions| || db.versions[v].project != p {
        return Err(NotFound);
      }
      if db.versions[v].status != StableVersion {
        return Err(Conflict);
      }
      if HasActiveRun(db, p) {
        return Err(Conflict);
      }
      if p >= |db.projects| {
        return Err(NotFound);
      }
      var i := |db.iterations|;
      db := db.(iterations := db.iterations + [Iteration(p, None, RestoreIteration, db.projects[p].stable, Some(v))]);
      db := db.(projects := db.projects[p := Project(Some(v), now)]);
      res := Ok(Reply(202, IterationBody(i)));
    }

    /* ---- Reading ---- */

    /** What the log and the artifacts of a run show about each stage. */
    method LoadHistoricalEvidence(run: Run, attempt: Option<Id>)
      returns (started: map<Stage, Time>, artifactAt: map<Stage, Time>, failure: (Option<Stage>, string))
      ensures forall s: Stage :: StartedAt(run.log, s) == if s in started then Some(started[s]) else None
      ensures forall s: Stage :: ArtifactAt(run.artifacts, s, attempt) == if s in artifactAt then Some(artifactAt[s]) else None
      ensures failure == FailureOf(run.log)
    {
      started, artifactAt, failure := map[], map[], (None, "");
      for k := 0 to |run.log|
        invariant forall s: Stage :: StartedAt(run.log[..k], s) == if s in started then Some(started[s]) else None
        invariant failure == FailureOf(run.log[..k])
      {
        var event := run.log[k];
        assert run.log[..k + 1][..k] == run.log[..k];
        match event.kind
        case StageStarted(stage) => started := started[stage := event.createdAt];
        case RunFailed(stage, code) => failure := (stage, code);
        case _ =>
      }
      assert run.log[..|run.log|] == run.log;
      for k := 0 to |run.artifacts|
        invariant forall s: Stage ::
          ArtifactAt(run.artifacts[..k], s, attempt) == if s in artifactAt then Some(artifactAt[s]) else None
      {
        var x := run.artifacts[k];
        assert run.artifacts[..k + 1][..k] == run.artifacts[..k];
        if attempt == None || attempt == Some(x.attempt) {
          if x.stage !in artifactAt || x.createdAt >= artifactAt[x.stage] {
            artifactAt := artifactAt[x.stage := x.createdAt];
          }
        }
      }
      assert run.artifacts[..|run.artifacts|] == run.artifacts;
    }

    /** One stage of a backfill, from the evidence. */
    method BackfillStage(run: Run, stage: Stage, attempt: Option<Id>, startedAt: Option<Time>,
                         artifactAt: Option<Time>, failure: (Option<Stage>, string))
      returns (row: StageRow)
      requires startedAt == StartedAt(run.log, stage) && artifactAt == ArtifactAt(run.artifacts, stage, attempt)
      requires failure == FailureOf(run.log)
      ensures row == BackfilledRow(run, stage, attempt)
    {
      var status := Waiting;
      if artifactAt.Some? {
        status := StageStatus.Done;
      } else if startedAt.Some? {
        status := InProgress;
      }
      if run.status == Succeeded && status != StageStatus.Done {
        status := Recovering;
      }
      if run.status == Failed && failure.0 == Some(stage) {
        status := Broken;
      }
      if run.status == Interrupted && status == InProgress {
        status := Cancelled;
      }
      var finished := None;
      if status == StageStatus.Done {
        finished := artifactAt;
      }
      if status == Broken || status == Cancelled {
        finished := Some(run.updatedAt);
      }
      var code := if status == Broken && failure.1 != "" then Some(failure.1) else None;
      row := StageRow(attempt, status, startedAt, finished, run.updatedAt, code);
    }

    /** The stage rows of a backfill, and whether a succeeded run lacks one. */
    method BackfillRun(run: Run, attempt: Option<Id>, sequence: nat)
      returns (ok: bool, stages: map<(nat, Stage), StageRow>, incomplete: bool)
      ensures ok == BackfillStages(run, attempt, sequence, |STAGES|).Ok?
      ensures if ok then BackfillStages(run, attempt, sequence, |STAGES|) == Ok(stages)
              else BackfillStages(run, attempt, sequence, |STAGES|) == Err(Internal)
      ensures ok ==> incomplete == IncompleteSuccess(run, attempt)
    {
      hide BackfilledStatus;
      var started, artifactAt, failure := LoadHistoricalEvidence(run, attempt);
      stages, incomplete := run.stages, false;
      for k := 0 to |STAGES|
        invariant BackfillStages(run, attempt, sequence, k) == Ok(stages)
        invariant incomplete == (run.status == Succeeded &&
                    exists j :: 0 <= j < k && BackfilledStatus(run, STAGES[j], attempt) != StageStatus.Done)
      {
        var stage := STAGES[k];
        var row := BackfillStage(run, stage, attempt, if stage in started then Some(started[stage]) else None,
                                 if stage in artifactAt then Some(artifactAt[stage]) else None, failure);
        if run.status == Succeeded && row.status != StageStatus.Done {
          incomplete := true;
        }
        if (sequence, stage) in stages {
          // the attempt already has a row for the stage
          BackfillFails(run, attempt, sequence, k + 1);
          ok := false;
          return;
        }
        stages := stages[(sequence, stage) := row];
      }
      IncompleteExactly(run, attempt);
      ok := true;
    }

    /** Backfills the workflow of a project that has none. */
    method RecoverWorkflow(p: Id, stable: Option<Id>, now: Time) returns (ok: bool)
      modifies this
      ensures if ok then Recover(old(db), p, stable, now) == Ok(db)
              else db == old(db) && Recover(old(db), p, stable, now) == Err(Internal)
    {
      var latest := LatestRun(db, p, |db.runs|);
      if latest.None? {
        var status := if stable.Some? then RecoveringFlow else DraftFlow;
        db := db.(workflows := db.workflows[p := Workflow(None, status, 1, now)]);
        return true;
      }
      var r := latest.value;
      var run := db.runs[r];
      var attempt := LastAttempt(run.attempts);
      var sequence := if attempt.Some? then run.attempts[attempt.value].sequence else 0;
      var inserted, stages, incomplete := BackfillRun(run, attempt, sequence);
      if !inserted {
        return false;
      }
      var flow := if incomplete then RecoveringFlow else FlowOf(run.status);
      db := db.(runs := db.runs[r := run.(stages := stages)]);
      db := db.(workflows := db.workflows[p := Workflow(Some(r), flow, 1, now)]);
      ok := true;
    }

    /** What speaks against the completion of a run, found stage by stage. */
    method FindConflicts(stable: Option<Id>, preview: Option<Id>, r: Id, run: Run, rows: seq<(Stage, StageRow)>)
      returns (codes: seq<ConflictCode>)
      ensures codes == ConflictsOf(stable, preview, r, run, rows)
    {
      codes := [];
      if stable.None? {
        codes := codes + [NoStablePreview];
      }
      if preview != Some(r) {
        codes := codes + [PreviewMismatch];
      }
      if |rows| != |STAGES| {
        codes := codes + [StageMissing];
        return;
      }
      for k := 0 to |rows|
        invariant StageConflict(run, rows) == StageConflict(run, rows[k..])
      {
        assert rows[k..][1..] == rows[k + 1..];
        if rows[k].1.status != StageStatus.Done {
          codes := codes + [StageNotSucceeded];
          return;
        }
        if !HasArtifact(run, rows[k].0, rows[k].1.attempt) {
          codes := codes + [StageWithoutArtifact];
          return;
        }
      }
    }

    /** Records each conflict, or reopens it. */
    method RecordConflicts(p: Id, r: Id, codes: seq<ConflictCode>)
      modifies this
      ensures db == old(db).(conflicts := Recorded(old(db).conflicts, p, r, codes))
    {
      for k := 0 to |codes|
        invariant db == old(db).(conflicts := Recorded(old(db).conflicts, p, r, codes[..k]))
      {
        assert codes[..k + 1][..k] == codes[..k];
        db := db.(conflicts := db.conflicts[(p, r, codes[k]) := None]);
      }
      assert codes[..|codes|] == codes;
    }

    /** Flags or heals a completed workflow. */
    method ReconcileConsistency(p: Id, stable: Option<Id>, preview: Option<Id>, now: Time)
      returns (res: Result<seq<ConflictCode>>)
      requires p in db.workflows
      modifies this
      ensures match Reconcile(old(db), p, stable, preview, now)
              case Ok((d, codes)) => db == d && res == Ok(codes)
              case Err(e) => res == Err(e)
    {
      hide StageRows, Bump, ConflictsOf, OpenCodes;
      var w := db.workflows[p];
      if w.run.None? {
        return Ok(OpenCodes(db.conflicts, p));
      }
      var r := w.run.value;
      if r >= |db.runs| {
        return Err(Internal);
      }
      if db.runs[r].status != Succeeded {
        return Ok(OpenCodes(db.conflicts, p));
      }
      var codes := FindConflicts(stable, preview, r, db.runs[r], StageRows(db.runs[r]));
      if |codes| > 0 {
        RecordConflicts(p, r, codes);
        MoveWorkflow(r, w.status != RecoveringFlow, RecoveringFlow, now);
        return Ok(codes);
      }
      db := db.(conflicts := Resolved(db.conflicts, p, now));
      MoveWorkflow(r, w.status == RecoveringFlow, CompletedFlow, now);
      res := Ok([]);
    }

    /** Advances the workflow of an existing run if it is to move. */
    method MoveWorkflow(r: Id, move: bool, status: WorkflowStatus, now: Time)
      requires r < |db.runs|
      modifies this
      ensures Ok(db) == if move then Bump(old(db), r, status, now) else Ok(old(db))
    {
      if move {
        var ok := BumpWorkflowForRun(r, status, now);
        assert ok;  // the run exists
      }
    }

    method GetProject(p: Id, now: Time) returns (res: Result<Detail>)
      modifies this
      ensures match Reading.GetProject(old(db), p, now)
              case Ok((d, detail)) => db == d && res == Ok(detail)
              case Err(e) => db == old(db) && res == Err(e)
    {
      hide Reconcile, Provenance, StagesOfWorkflow, BackfillStages, IncompleteSuccess;
      if p >= |db.projects| {
        return Err(NotFound);
      }
      var saved := db;
      var stable := db.projects[p].stable;
      db := db.(projects := db.projects[p := Project(stable, now)]);
      if p !in db.workflows {
        var ok := RecoverWorkflow(p, stable, now);
        if !ok {
          db := saved;
          return Err(Internal);
        }
      }
      ghost var loaded := db;
      var run := db.workflows[p].run;
      var stages := StagesOfWorkflow(db, run);
      var preview := PreviewWorkflowRun(db.versions, db.iterations, stable);
      var codes := ReconcileConsistency(p, stable, preview, now);
      if codes.Err? {
        db := saved;
        return Err(codes.error);
      }
      ReconcileKeepsRow(loaded, p, stable, preview, now);
      var w := db.workflows[p];
      res := Ok(Detail(stable, w.status, w.version, run, stages, preview, codes.value));
    }
  }

  /** The index looks at projects and statuses only. */
  lemma SameActive(db: Db, d: Db, r: Id, row: Run)
    requires |db.runs| == |d.runs| && r < |db.runs|
    requires forall k :: 0 <= k < |db.runs| ==> d.runs[k].project == db.runs[k].project && d.runs[k].status == db.runs[k].status
    ensures BreaksActiveIndex(db, r, row) == BreaksActiveIndex(d, r, row)
  {
    forall k | 0 <= k < |db.runs| ensures ActiveIn(db, k, row.project) == ActiveIn(d, k, row.project) {
    }
  }

  lemma {:induction false} BackfillFails(run: Run, attempt: Option<Id>, sequence: nat, k: nat)
    requires k <= |STAGES| && BackfillStages(run, attempt, sequence, k).Err?
    ensures BackfillStages(run, attempt, sequence, |STAGES|) == Err(Internal)
    decreases |STAGES| - k
  {
    BackfillError(run, attempt, sequence, |STAGES|);
    if k < |STAGES| {
      BackfillFails(run, attempt, sequence, k + 1);
    }
  }

  lemma {:induction false} BackfillError(run: Run, attempt: Option<Id>, sequence: nat, k: nat)
    requires k <= |STAGES|
    ensures BackfillStages(run, attempt, sequence, k).Err? ==> BackfillStages(run, attempt, sequence, k) == Err(Internal)
  {
    if k > 0 {
      BackfillError(run, attempt, sequence, k - 1);
    }
  }

  lemma IncompleteExactly(run: Run, attempt: Option<Id>)
    ensures IncompleteSuccess(run, attempt) <==>
            run.status == Succeeded &&
            exists j :: 0 <= j < |STAGES| && BackfilledStatus(run, STAGES[j], attempt) != StageStatus.Done
  {
    if IncompleteSuccess(run, attempt) {
      var s: Stage :| BackfilledStatus(run, s, attempt) != StageStatus.Done;
      assert STAGES[Position(s)] == s;
    }
  }

  lemma ReconcileKeepsRow(db: Db, p: Id, stable: Option<Id>, preview: Option<Id>, now: Time)
    requires p in db.workflows && Reconcile(db, p, stable, preview, now).Ok?
    ensures p in Reconcile(db, p, stable, preview, now).value.0.workflows
  {
    hide StageRows, ConflictsOf, OpenCodes;
  }
}
