/** The store operations (internal/store) as functions: what each transaction makes of the
    tables.  The class in Store.dfy runs them statement by statement. */
module Operations {
  import opened Prelude
  import opened Tables
  import opened Workflows
  import Gate

  const PROMPT_MIN_CHARS := 1
  const PROMPT_MAX_CHARS := 4000

  predicate ActiveIn(db: Db, r: Id, p: Id) {
    r < |db.runs| && db.runs[r].project == p && db.runs[r].status.Active()
  }

  predicate HasActiveRun(db: Db, p: Id) { exists r | 0 <= r < |db.runs| :: ActiveIn(db, r, p) }

  /** Writing `row` at `r` would give its project a second active run. */
  predicate BreaksActiveIndex(db: Db, r: Id, row: Run) {
    row.status.Active() && exists r' | 0 <= r' < |db.runs| :: r' != r && ActiveIn(db, r', row.project)
  }

  /** An update of run `r`, subject to the unique index on active runs. */
  function PutRun(db: Db, r: Id, row: Run): Result<Db>
    requires r < |db.runs|
  {
    if BreaksActiveIndex(db, r, row) then Err(Internal) else Ok(db.(runs := db.runs[r := row]))
  }

  /** An insert of a run, subject to the same index. */
  function InsertRun(db: Db, row: Run): Result<Db> {
    if row.status.Active() && HasActiveRun(db, row.project) then Err(Internal)
    else Ok(db.(runs := db.runs + [row]))
  }

  function CreateProject(db: Db, promptChars: nat, now: Time): Result<(Db, Reply)> {
    if promptChars < PROMPT_MIN_CHARS || promptChars > PROMPT_MAX_CHARS then Err(Invalid)
    else
      var p := |db.projects|;
      var workflow := if p in db.workflows then db.workflows[p] else Workflow(None, DraftFlow, 1, now);
      Ok((db.(projects := db.projects + [Project(None, now)], workflows := db.workflows[p := workflow]),
          Reply(201, ProjectBody(p))))
  }

  function NewRun(p: Id, status: Status, base: Option<Id>, now: Time): Run {
    var log := if status == Failed then [Event(1, RunFailed(None, "DEPENDENCY_UNAVAILABLE"), now)] else [];
    Run(p, status, base, Some(0), now, now, [Attempt(1, status)], InitStages(map[], 0, 1, now), [], log)
  }

  function CreateRun(db: Db, p: Id, promptChars: nat, base: Option<Id>, canStart: bool, now: Time): Result<(Db, Reply)> {
    if promptChars < PROMPT_MIN_CHARS || promptChars > PROMPT_MAX_CHARS then Err(Invalid)
    else if p >= |db.projects| then Err(NotFound)
    else if base.Some? && db.projects[p].stable != base then Err(Conflict)
    else if HasActiveRun(db, p) then Err(Conflict)
    else
      var r := |db.runs|;
      var stable := db.projects[p].stable;
      var status := if canStart then Queued else Failed;
      var db1 :- InsertRun(db, NewRun(p, status, stable, now));
      var db2 := Point(db1, p, r, FlowOf(status), now);
      var db3 := db2.(iterations := db2.iterations + [Iteration(p, Some(r), AgentIteration, stable, None)]);
      Ok((db3, if canStart then Reply(202, RunBody(r)) else Reply(503, NoBody)))
  }

  function MaxSequence(attempts: seq<Attempt>): (m: nat)
    ensures forall k :: 0 <= k < |attempts| ==> attempts[k].sequence <= m
    ensures m == 0 || exists k :: 0 <= k < |attempts| && attempts[k].sequence == m
  {
    if attempts == [] then 0
    else
      var last := |attempts| - 1;
      var m := MaxSequence(attempts[..last]);
      if attempts[last].sequence > m then attempts[last].sequence else m
  }

  function RetryRun(db: Db, r: Id, now: Time): Result<(Db, Reply)> {
    if r >= |db.runs| then Err(NotFound)
    else if db.runs[r].status != Failed && db.runs[r].status != Interrupted then Err(Conflict)
    else
      var run := db.runs[r];
      var a, sequence := |run.attempts|, MaxSequence(run.attempts) + 1;
      var db1 :- PutRun(db, r, run.(
        attempts := run.attempts + [Attempt(sequence, Running)], activeAttempt := Some(a), status := Running,
        updatedAt := now, stages := InitStages(run.stages, a, sequence, now)));
      var db2 :- Bump(db1, r, RunningFlow, now);
      Ok((db2, Reply(202, AttemptBody(r, a))))
  }

  function RecordArtifact(db: Db, r: Id, a: Id, stage: Stage, ref: string, now: Time): Result<Db> {
    if r >= |db.runs| || a >= |db.runs[r].attempts| then Err(NotFound)
    else
      var run := db.runs[r];
      var run1 := run.(artifacts := run.artifacts + [Artifact(a, stage, ref, now)]);
      var run2 := SetStage(run1, a, run.attempts[a].sequence, stage, Done, now, None);
      Bump(db.(runs := db.runs[r := run2]), r, RunningFlow, now)
  }

  /** The first attempt with the given number. */
  function AttemptWithSequence(attempts: seq<Attempt>, sequence: nat): (a: Option<Id>)
    ensures a.Some? ==> a.value < |attempts| && attempts[a.value].sequence == sequence
    ensures a.None? ==> forall k :: 0 <= k < |attempts| ==> attempts[k].sequence != sequence
  {
    if attempts == [] then None
    else
      var last := |attempts| - 1;
      var earlier := AttemptWithSequence(attempts[..last], sequence);
      if earlier.Some? then earlier
      else if attempts[last].sequence == sequence then Some(last) else None
  }

  /** Has the attempt this compile result already? */
  predicate KnownResult(db: Db, r: Id, sequence: nat, ref: string) {
    r < |db.runs| && var a := AttemptWithSequence(db.runs[r].attempts, sequence);
    a.Some? && exists x | x in db.runs[r].artifacts :: x.attempt == a.value && x.stage == Qa && x.ref == ref
  }

  /** The compile-result callback once it has found out, perhaps a while ago, whether the
      result is known: a known one is not recorded again. */
  function CompileResult(db: Db, r: Id, sequence: nat, ref: string, known: bool, now: Time): Result<Db> {
    if r >= |db.runs| then Err(NotFound)
    else match AttemptWithSequence(db.runs[r].attempts, sequence)
      case None => Err(NotFound)
      case Some(a) => if known then Ok(db) else RecordArtifact(db, r, a, Qa, ref, now)
  }

  /** The callback when nothing comes between its two steps. */
  function RecordCompileResult(db: Db, r: Id, sequence: nat, ref: string, now: Time): Result<Db> {
    CompileResult(db, r, sequence, ref, KnownResult(db, r, sequence, ref), now)
  }

  function MaxEventSeq(log: seq<Event>): nat {
    if log == [] then 0
    else
      var last := |log| - 1;
      var m := MaxEventSeq(log[..last]);
      if log[last].seq_ > m then log[last].seq_ else m
  }

  function AppendEvent(db: Db, r: Id, kind: EventKind, now: Time): Result<Db> {
    if r >= |db.runs| then Err(Internal)
    else
      var run := db.runs[r];
      var event := Event(MaxEventSeq(run.log) + 1, kind, now);
      ApplyEvent(db.(runs := db.runs[r := run.(log := run.log + [event])]), r, kind, now)
  }

  /** Cancels the stages and the workflows of the active ones among the first `k` runs. */
  function CancelActive(db: Db, k: nat, now: Time): (d: Result<Db>)
    requires k <= |db.runs|
    ensures d.Ok? ==> |d.value.runs| == |db.runs|
  {
    if k == 0 then Ok(db)
    else
      var db1 :- CancelActive(db, k - 1, now);
      if !db1.runs[k - 1].status.Active() then Ok(db1)
      else Bump(db1.(runs := db1.runs[k - 1 := CancelStages(db1.runs[k - 1], now)]), k - 1, CancelledFlow, now)
  }

  function InterruptedAttempts(attempts: seq<Attempt>): seq<Attempt> {
    seq(|attempts|, i requires 0 <= i < |attempts| =>
      if attempts[i].status.Active() then attempts[i].(status := Interrupted) else attempts[i])
  }

  function InterruptedRun(run: Run, now: Time): Run {
    if run.status.Active()
    then run.(attempts := InterruptedAttempts(run.attempts), status := Interrupted, activeAttempt := None, updatedAt := now)
    else run
  }

  /** The start-up reconciliation: no run stays active. */
  function MarkInterrupted(db: Db, now: Time): Result<Db> {
    var db1 :- CancelActive(db, |db.runs|, now);
    Ok(db1.(runs := seq(|db1.runs|, i requires 0 <= i < |db1.runs| => InterruptedRun(db1.runs[i], now))))
  }

  /* ---- Versions ---- */

  datatype Snapshot = Snapshot(path: string, file: File)

  predicate DistinctPaths(files: seq<Snapshot>) {
    forall i, j | 0 <= i < j < |files| :: files[i].path != files[j].path
  }

  function FileSetOf(files: seq<Snapshot>): FileSet {
    if files == [] then map[]
    else FileSetOf(files[..|files| - 1])[files[|files| - 1].path := files[|files| - 1].file]
  }

  /** A duplicate path or an unknown project violates the schema and aborts. */
  function CreateDraft(db: Db, p: Id, it: Id, files: seq<Snapshot>): Result<(Db, Id)> {
    if it >= |db.iterations| then Err(NotFound)
    else if p >= |db.projects| || !DistinctPaths(files) then Err(Internal)
    else
      var v := Version(p, it, DraftVersion, FileSetOf(files));
      Ok((db.(versions := db.versions + [v]), |db.versions|))
  }

  function EndAttempt(attempts: seq<Attempt>, a: Id, status: Status): seq<Attempt> {
    if a < |attempts| then attempts[a := attempts[a].(status := status)] else attempts
  }

  /** Ends a run and one of its attempts. */
  function EndRun(run: Run, a: Id, status: Status, now: Time): Run {
    run.(status := status, activeAttempt := None, updatedAt := now, attempts := EndAttempt(run.attempts, a, status))
  }

  /** Ends the run that owns a version, if there is one. */
  function EndOwner(db: Db, owner: Option<(Id, Id)>, status: Status, now: Time): Result<Db> {
    match owner
    case None => Ok(db)
    case Some((r, a)) =>
      if r >= |db.runs| then Err(Internal)
      else Bump(db.(runs := db.runs[r := EndRun(db.runs[r], a, status, now)]), r, FlowOf(status), now)
  }

  /** Draft to stable, and the stable pointer from the iteration's base to it. */
  function Promote(db: Db, v: Id, owner: Option<(Id, Id)>, now: Time): Result<(Db, VersionStatus)> {
    if v >= |db.versions| then Err(NotFound)
    else
      var version := db.versions[v];
      if version.status != DraftVersion then Ok((db, version.status))
      else if version.iteration >= |db.iterations| then Err(NotFound)
      else
        var it := db.iterations[version.iteration];
        if version.project >= |db.projects| || db.projects[version.project].stable != it.base then Err(Conflict)
        else
          var db1 := db.(
            versions := db.versions[v := version.(status := StableVersion)],
            iterations := db.iterations[version.iteration := it.(result := Some(v))],
            projects := db.projects[version.project := Project(Some(v), now)]);
          var db2 :- EndOwner(db1, owner, Succeeded, now);
          Ok((db2, StableVersion))
  }

  /** Draft to failed; the stable pointer is not touched. */
  function FailDraft(db: Db, v: Id, owner: Option<(Id, Id)>, now: Time): Result<(Db, VersionStatus)> {
    if v >= |db.versions| then Err(NotFound)
    else
      var version := db.versions[v];
      if version.status != DraftVersion then Ok((db, version.status))
      else
        var db1 := db.(
          versions := db.versions[v := version.(status := FailedVersion)],
          iterations := if version.iteration < |db.iterations|
                        then db.iterations[version.iteration := db.iterations[version.iteration].(result := Some(v))]
                        else db.iterations);
        var db2 :- EndOwner(db1, owner, Failed, now);
        Ok((db2, FailedVersion))
  }

  function BeginAttempt(db: Db, r: Id, a: Id, now: Time): Result<Db> {
    if r >= |db.runs| then Err(Internal)
    else
      var run := db.runs[r];
      var attempts := if a < |run.attempts| && run.attempts[a].status == Queued then EndAttempt(run.attempts, a, Running)
                      else run.attempts;
      var db1 :- PutRun(db, r, run.(attempts := attempts, status := Running, updatedAt := now));
      Bump(db1, r, RunningFlow, now)
  }

  function FailedAttempts(attempts: seq<Attempt>): seq<Attempt> {
    seq(|attempts|, i requires 0 <= i < |attempts| =>
      if attempts[i].status.Active() then attempts[i].(status := Failed) else attempts[i])
  }

  function FailRun(db: Db, r: Id, now: Time): Result<Db> {
    if r >= |db.runs| then Err(Internal)
    else
      var run := db.runs[r];
      Bump(db.(runs := db.runs[r := run.(attempts := FailedAttempts(run.attempts), status := Failed,
                                         activeAttempt := None, updatedAt := now)]), r, FailedFlow, now)
  }

  /** The files of the stable version with the writable file replaced or added. */
  function Override(files: FileSet, content: string): FileSet { files[APP := File(content, false)] }

  /** A manual edit; one that fails the gate is recorded and changes nothing else. */
  ghost function WriteFile(db: Db, p: Id, content: string, base: Option<Id>, now: Time): Result<(Db, Reply)> {
    if |content| > Gate.FILE_CONTENT_MAX_BYTES then Err(Invalid)
    else if p >= |db.projects| then Err(NotFound)
    else if HasActiveRun(db, p) then Err(Conflict)
    else if db.projects[p].stable.None? then Err(Conflict)
    else if base.Some? && db.projects[p].stable != base then Err(Conflict)
    else
      var stable := db.projects[p].stable.value;
      var files := Override(if stable < |db.versions| then db.versions[stable].files else map[], content);
      var it, v := |db.iterations|, |db.versions|;
      var pass := Gate.Passes(content);
      var db1 := db.(
        iterations := db.iterations + [Iteration(p, None, ManualIteration, Some(stable), Some(v))],
        versions := db.versions + [Version(p, it, if pass then StableVersion else FailedVersion, files)]);
      if pass then
        var db2 := db1.(projects := db1.projects[p := Project(Some(v), now)]);
        Ok((BumpSnapshot(db2, p, now), Reply(202, IterationBody(it))))
      else Ok((db1, Reply(422, CompileErrors)))
  }

  /** Makes an earlier stable version the stable one again. */
  function RestoreVersion(db: Db, p: Id, v: Id, now: Time): Result<(Db, Reply)> {
    if v >= |db.versions| || db.versions[v].project != p then Err(NotFound)
    else if db.versions[v].status != StableVersion then Err(Conflict)
    else if HasActiveRun(db, p) then Err(Conflict)
    else if p >= |db.projects| then Err(NotFound)
    else
      var it := |db.iterations|;
      var db1 := db.(
        iterations := db.iterations + [Iteration(p, None, RestoreIteration, db.projects[p].stable, Some(v))],
        projects := db.projects[p := Project(Some(v), now)]);
      Ok((db1, Reply(202, IterationBody(it))))
  }
}
