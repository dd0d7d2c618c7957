/** Writes that reach a run after it has ended: a compile result, and the loop's last word.
    When exactly they leave the tables saying two things at once. */
module LateWrites {
  import opened Prelude
  import opened Tables
  import opened Workflows
  import opened Operations
  import opened Invariant
  import opened RunSteps
  import opened Lineage
  import opened Reading
  import opened ReadingLaws
  import opened Systems
  import opened SystemSafety

  /* ---- Compile results ---- */

  /** Has the attempt with the number an artifact of this compile result? */
  predicate ResultRecorded(run: Run, sequence: nat, ref: string) {
    exists x | x in run.artifacts :: x.attempt + 1 == sequence && x.stage == Qa && x.ref == ref
  }

  lemma {:induction false} AttemptOfNumber(attempts: seq<Attempt>, sequence: nat)
    requires forall k :: 0 <= k < |attempts| ==> attempts[k].sequence == k + 1
    ensures AttemptWithSequence(attempts, sequence) ==
            if 1 <= sequence <= |attempts| then Some(sequence - 1) else None
  {
    if 1 <= sequence <= |attempts| {
      assert attempts[sequence - 1].sequence == sequence;
    }
  }

  lemma UnknownResultIs(db: Db, r: Id, sequence: nat, ref: string, now: Time)
    requires r < |db.runs| && RunOk(db.runs[r]) && 1 <= sequence <= |db.runs[r].attempts|
    ensures CompileResult(db, r, sequence, ref, false, now) == RecordArtifact(db, r, sequence - 1, Qa, ref, now)
  {
    hide RecordArtifact;
    AttemptOfNumber(db.runs[r].attempts, sequence);
  }

  /** A result that is not known adds an artifact and moves the workflow to running. */
  ghost predicate ResultAdded(db: Db, d: Db, r: Id, sequence: nat, ref: string, now: Time) {
    1 <= sequence && RunWrite(db, d, r, RunningFlow, now) &&
    d.runs[r].artifacts == db.runs[r].artifacts + [Artifact(sequence - 1, Qa, ref, now)] &&
    d.runs[r].status == db.runs[r].status && d.runs[r].attempts == db.runs[r].attempts
  }

  lemma UnknownResultAdds(db: Db, ro: FileSet, r: Id, sequence: nat, ref: string, now: Time)
    requires Inv(db, ro) && r < |db.runs| && 1 <= sequence <= |db.runs[r].attempts|
    ensures var res := CompileResult(db, r, sequence, ref, false, now);
            res.Ok? && Inv(res.value, ro) && ResultAdded(db, res.value, r, sequence, ref, now)
  {
    hide VersionOk, RecordArtifact, ResultAdded, RunOk, CompileResult;
    UnknownResultIs(db, r, sequence, ref, now);
    RecordedAdds(db, ro, r, sequence, ref, now);
  }

  lemma RecordedAdds(db: Db, ro: FileSet, r: Id, sequence: nat, ref: string, now: Time)
    requires Inv(db, ro) && r < |db.runs| && 1 <= sequence <= |db.runs[r].attempts|
    ensures var res := RecordArtifact(db, r, sequence - 1, Qa, ref, now);
            res.Ok? && Inv(res.value, ro) && ResultAdded(db, res.value, r, sequence, ref, now)
  {
    hide Inv, RecordArtifact, Grows, RunWrite;
    RecordArtifactKeeps(db, ro, r, sequence - 1, Qa, ref, now);
  }

  lemma KnownIsRecorded(db: Db, r: Id, sequence: nat, ref: string, now: Time)
    requires r < |db.runs| && RunOk(db.runs[r]) && 1 <= sequence <= |db.runs[r].attempts|
    ensures KnownResult(db, r, sequence, ref) <==> ResultRecorded(db.runs[r], sequence, ref)
    ensures CompileResult(db, r, sequence, ref, true, now) == Ok(db)
  {
    AttemptOfNumber(db.runs[r].attempts, sequence);
  }

  /** The callback is served exactly for an attempt there is, and a run that has succeeded
      keeps the status of its workflow exactly when the result is recorded already; any
      other result puts the workflow to running. */
  lemma LateResultExactly(db: Db, ro: FileSet, p: Id, r: Id, sequence: nat, ref: string, now: Time)
    requires Inv(db, ro) && p in db.workflows && db.workflows[p].run == Some(r)
    requires r < |db.runs| && db.runs[r].status == Succeeded
    ensures var res := RecordCompileResult(db, r, sequence, ref, now);
            (res.Ok? <==> 1 <= sequence <= |db.runs[r].attempts|) &&
            (res.Ok? ==>
              Inv(res.value, ro) && p in res.value.workflows && res.value.workflows[p].run == Some(r) &&
              r < |res.value.runs| && res.value.runs[r].status == Succeeded &&
              res.value.workflows[p].status ==
              if ResultRecorded(db.runs[r], sequence, ref) then db.workflows[p].status else RunningFlow)
  {
    hide VersionOk, RecordArtifact;
    if 1 <= sequence <= |db.runs[r].attempts| {
      InvPointers(db, ro);
      KnownIsRecorded(db, r, sequence, ref, now);
      UnknownResultAdds(db, ro, r, sequence, ref, now);
    } else {
      assert RunOk(db.runs[r]);
      AttemptOfNumber(db.runs[r].attempts, sequence);
    }
  }

  /** Preview, run and stages of a project agree that run `r` has succeeded. */
  ghost predicate Agree(db: Db, p: Id, r: Id) {
    p < |db.projects| && r < |db.runs| && db.projects[p].stable.Some? &&
    Provenance(db.versions, db.iterations, db.projects[p].stable) == Some(r) && AllProven(db.runs[r])
  }

  /** They agree, once the gate's stage of the latest attempt has a result. */
  ghost predicate AgreeButQa(db: Db, p: Id, r: Id) {
    p < |db.projects| && r < |db.runs| && db.projects[p].stable.Some? &&
    Provenance(db.versions, db.iterations, db.projects[p].stable) == Some(r) && ProvenButQa(db.runs[r])
  }

  ghost predicate ProvenButQa(run: Run) { forall s: Stage :: s != Qa ==> StageProven(run, s) }

  /** A new result proves the gate's stage if its attempt is the latest, and changes nothing
      about any other stage. */
  lemma ResultProves(run: Run, a: Id, ref: string, now: Time, s: Stage)
    requires RunOk(run) && a < |run.attempts|
    ensures StageProven(ArtifactRow(run, a, Qa, ref, now), s) <==>
            StageProven(run, s) || (s == Qa && a + 1 == |run.attempts|)
  {
    var row, n := ArtifactRow(run, a, Qa, ref, now), |run.attempts|;
    assert (a + 1, Qa) in run.stages && (n, s) in run.stages && (n, Pm) in run.stages && (n, Pm) in row.stages;
    assert LatestAttempt(run.stages) == n == LatestAttempt(row.stages);
    assert row.stages[(n, s)].attempt == Some(n - 1);
    ArtifactAdded(run, row, Artifact(a, Qa, ref, now), s, n - 1);
  }

  lemma ArtifactAdded(run: Run, row: Run, x: Artifact, s: Stage, a: Id)
    requires row.artifacts == run.artifacts + [x]
    ensures HasArtifact(row, s, Some(a)) <==> HasArtifact(run, s, Some(a)) || (x.stage == s && x.attempt == a)
  {
    assert x in row.artifacts && forall y :: y in run.artifacts ==> y in row.artifacts;
  }

  lemma ResultProvesAll(run: Run, a: Id, ref: string, now: Time)
    requires RunOk(run) && a < |run.attempts|
    ensures AllProven(ArtifactRow(run, a, Qa, ref, now)) <==>
            AllProven(run) || (a + 1 == |run.attempts| && ProvenButQa(run))
  {
    forall s: Stage
      ensures StageProven(ArtifactRow(run, a, Qa, ref, now), s) <==>
              StageProven(run, s) || (s == Qa && a + 1 == |run.attempts|)
    {
      ResultProves(run, a, ref, now, s);
    }
    AllProvenBy(run, ArtifactRow(run, a, Qa, ref, now), a + 1 == |run.attempts|);
  }

  lemma AllProvenBy(run: Run, row: Run, latest: bool)
    requires forall s: Stage :: StageProven(row, s) <==> StageProven(run, s) || (s == Qa && latest)
    ensures AllProven(row) <==> AllProven(run) || (latest && ProvenButQa(run))
  {
  }

  lemma AgreeAfterResult(db: Db, d: Db, p: Id, r: Id, a: Id, ref: string, now: Time)
    requires r < |db.runs| && RunOk(db.runs[r]) && a < |db.runs[r].attempts| && RunWrite(db, d, r, RunningFlow, now)
    requires d.runs[r] == ArtifactRow(db.runs[r], a, Qa, ref, now)
    ensures Agree(d, p, r) <==> Agree(db, p, r) || (a + 1 == |db.runs[r].attempts| && AgreeButQa(db, p, r))
  {
    ResultProvesAll(db.runs[r], a, ref, now);
    AgreeBy(db, d, p, r, a + 1 == |db.runs[r].attempts|);
  }

  lemma AgreeBy(db: Db, d: Db, p: Id, r: Id, latest: bool)
    requires d.versions == db.versions && d.iterations == db.iterations && d.projects == db.projects
    requires r < |db.runs| == |d.runs|
    requires AllProven(d.runs[r]) <==> AllProven(db.runs[r]) || (latest && ProvenButQa(db.runs[r]))
    ensures Agree(d, p, r) <==> Agree(db, p, r) || (latest && AgreeButQa(db, p, r))
  {
  }

  lemma KnownResultKeeps(db: Db, r: Id, sequence: nat, ref: string, now: Time)
    requires r < |db.runs| && RunOk(db.runs[r]) && 1 <= sequence <= |db.runs[r].attempts|
    requires ResultRecorded(db.runs[r], sequence, ref)
    ensures RecordCompileResult(db, r, sequence, ref, now) == Ok(db)
  {
    KnownIsRecorded(db, r, sequence, ref, now);
  }

  lemma NewResultWrites(db: Db, ro: FileSet, r: Id, sequence: nat, ref: string, now: Time) returns (d: Db)
    requires Inv(db, ro) && r < |db.runs| && 1 <= sequence <= |db.runs[r].attempts|
    requires !ResultRecorded(db.runs[r], sequence, ref)
    ensures RecordCompileResult(db, r, sequence, ref, now) == Ok(d) && RunWrite(db, d, r, RunningFlow, now)
    ensures d.runs[r] == ArtifactRow(db.runs[r], sequence - 1, Qa, ref, now)
  {
    hide VersionOk, Grows;
    KnownIsRecorded(db, r, sequence, ref, now);
    UnknownResultIs(db, r, sequence, ref, now);
    RecordArtifactKeeps(db, ro, r, sequence - 1, Qa, ref, now);
    d := RecordArtifact(db, r, sequence - 1, Qa, ref, now).value;
  }

  lemma CompileAgrees(db: Db, ro: FileSet, p: Id, r: Id, sequence: nat, ref: string, now: Time) returns (d: Db)
    requires Inv(db, ro) && r < |db.runs| && 1 <= sequence <= |db.runs[r].attempts|
    ensures var recorded := ResultRecorded(db.runs[r], sequence, ref);
            RecordCompileResult(db, r, sequence, ref, now) == Ok(d) && (recorded ==> d == db) &&
            (Agree(d, p, r) <==>
             Agree(db, p, r) || (!recorded && sequence == |db.runs[r].attempts| && AgreeButQa(db, p, r)))
  {
    hide VersionOk, RecordCompileResult, ArtifactRow, StageProven, RunOk;
    if ResultRecorded(db.runs[r], sequence, ref) {
      KnownResultKeeps(db, r, sequence, ref, now);
      d := db;
    } else {
      d := NewResultWrites(db, ro, r, sequence, ref, now);
      AgreeAfterResult(db, d, p, r, sequence - 1, ref, now);
    }
  }

  /** So a completed workflow stays completed, for a reader too, exactly when the result is
      recorded already and preview, run and stages agree.  A new result of the latest attempt
      stands in for what the gate's stage lacks, one of an earlier attempt changes nothing
      about the agreement; with either the reader sees a running workflow at best, however
      often it reads. */
  lemma CompletedStaysExactly(db: Db, ro: FileSet, p: Id, r: Id, sequence: nat, ref: string, now: Time, later: Time)
    requires Inv(db, ro) && p in db.workflows && db.workflows[p].run == Some(r)
    requires r < |db.runs| && db.runs[r].status == Succeeded && db.workflows[p].status == CompletedFlow
    requires 1 <= sequence <= |db.runs[r].attempts|
    ensures RecordCompileResult(db, r, sequence, ref, now).Ok?
    ensures var d := RecordCompileResult(db, r, sequence, ref, now).value;
            var recorded := ResultRecorded(db.runs[r], sequence, ref);
            var agree := Agree(db, p, r) || (!recorded && sequence == |db.runs[r].attempts| && AgreeButQa(db, p, r));
            (recorded ==> d == db) && (Agree(d, p, r) <==> agree) &&
            p in d.workflows && (d.workflows[p].status == CompletedFlow <==> recorded) &&
            GetProject(d, p, later).Ok? &&
            var detail := GetProject(d, p, later).value.1;
            (detail.conflicts == [] <==> agree) &&
            detail.status == if !agree then RecoveringFlow else if recorded then CompletedFlow else RunningFlow
  {
    hide GetProject, VersionOk, RecordCompileResult, Provenance, StageProven;
    LateResultExactly(db, ro, p, r, sequence, ref, now);
    var d := CompileAgrees(db, ro, p, r, sequence, ref, now);
    assert ProjectOk(d, p);
    ConsistentExactly(d, p, later);
  }

  /** Two callbacks that look before either writes record the same result twice. */
  lemma CallbacksMayRepeat(db: Db, ro: FileSet, r: Id, sequence: nat, ref: string, now: Time, later: Time)
    requires Inv(db, ro) && r < |db.runs| && 1 <= sequence <= |db.runs[r].attempts|
    ensures CompileResult(db, r, sequence, ref, false, now).Ok?
    ensures var d := CompileResult(db, r, sequence, ref, false, now).value;
            CompileResult(d, r, sequence, ref, false, later).Ok? &&
            var e := CompileResult(d, r, sequence, ref, false, later).value;
            r < |e.runs| &&
            e.runs[r].artifacts == db.runs[r].artifacts + [Artifact(sequence - 1, Qa, ref, now), Artifact(sequence - 1, Qa, ref, later)]
  {
    hide Inv, CompileResult;
    UnknownResultAdds(db, ro, r, sequence, ref, now);
    var d := CompileResult(db, r, sequence, ref, false, now).value;
    UnknownResultAdds(d, ro, r, sequence, ref, later);
  }

  /* ---- The last word ---- */

  /** Of the run's stage rows only `key` changes, and it is failed. */
  ghost predicate OnlyFails(a: Run, b: Run, key: (nat, Stage), now: Time) {
    b.stages.Keys == a.stages.Keys && key in b.stages && b.status == a.status && b.attempts == a.attempts &&
    b.stages[key].status == Broken && b.stages[key].finishedAt == Some(now) &&
    forall k :: k in a.stages && k != key ==> b.stages[k] == a.stages[k]
  }

  /** A last word with a stage fails the stage's row of the latest attempt, and one without
      changes no row. */
  ghost predicate WordLands(a: Run, b: Run, stage: Option<Stage>, now: Time) {
    match stage
    case None => b.stages == a.stages && b.status == a.status && b.attempts == a.attempts
    case Some(s) => OnlyFails(a, b, (|a.attempts|, s), now)
  }

  lemma FailureRow(run: Run, stage: Option<Stage>, code: string, now: Time)
    requires RunOk(run)
    ensures WordLands(run, EventRow(run, RunFailed(stage, code), now), stage, now)
  {
    assert stage.Some? ==> (|run.attempts|, stage.value) in run.stages;
  }

  predicate Pointed(db: Db, r: Id) {
    r < |db.runs| && db.runs[r].project in db.workflows && db.workflows[db.runs[r].project].run == Some(r)
  }

  /** The project's workflow is the run, and says something else than the run does. */
  predicate FlowDisagrees(db: Db, r: Id) {
    Pointed(db, r) && db.workflows[db.runs[r].project].status != FlowOf(db.runs[r].status)
  }

  lemma FailedFlowDisagrees(db: Db, d: Db, r: Id, now: Time)
    requires RunWrite(db, d, r, FailedFlow, now)
    requires d.runs[r].status == db.runs[r].status && d.runs[r].project == db.runs[r].project
    ensures FlowDisagrees(d, r) <==> Pointed(db, r) && db.runs[r].status != Failed
  {
  }

  /** A `run_failed` fails the stage of the attempt that is the last one when it is written,
      and no other row, and without a stage it changes none; workflow and run disagree
      afterwards exactly when the run is pointed at and has not failed. */
  lemma LastWordLands(db: Db, ro: FileSet, r: Id, stage: Option<Stage>, code: string, now: Time)
    requires Inv(db, ro) && r < |db.runs|
    ensures var res := AppendEvent(db, r, RunFailed(stage, code), now);
            res.Ok? && r < |res.value.runs| && WordLands(db.runs[r], res.value.runs[r], stage, now) &&
            (FlowDisagrees(res.value, r) <==> Pointed(db, r) && db.runs[r].status != Failed)
  {
    hide VersionOk;
    AppendEventKeeps(db, ro, r, RunFailed(stage, code), now);
    FailureRow(db.runs[r], stage, code, now);
    var d := AppendEvent(db, r, RunFailed(stage, code), now).value;
    FailedFlowDisagrees(db, d, r, now);
  }

  /** The last word of a loop that ended its run as failed with `n` attempts, written at any
      later moment, with the stage it failed in or, if it failed before the first, without.  A
      stage lands on the attempt that failed exactly while there is no other, that is until a
      retry; then run and workflow agree.  After a retry it lands on the new attempt, and, with
      or without a stage, they disagree exactly when the run is still the project's workflow
      and has not failed again. */
  lemma LastWordExactly(states: seq<System>, i: nat, j: nat, r: Id, stage: Option<Stage>, code: string, now: Time)
    requires IsRun(states) && i <= j < |states| && r < |states[i].db.runs| && states[i].db.runs[r].status == Failed
    ensures r < |states[j].db.runs|
    ensures var db, n := states[j].db, |states[i].db.runs[r].attempts|;
            var m := |db.runs[r].attempts|;
            var res := AppendEvent(db, r, RunFailed(stage, code), now);
            n <= m && res.Ok? && r < |res.value.runs| && WordLands(db.runs[r], res.value.runs[r], stage, now) &&
            (m == n ==> db.runs[r].status == Failed) &&
            (FlowDisagrees(res.value, r) <==> n < m && Pointed(db, r) && db.runs[r].status != Failed)
  {
    hide IsRun, Inv, AppendEvent, AgentOk, WordLands;
    EndedUntilRetried(states, i, j, r);
    RunsAreSafe(states, j);
    LastWordLands(states[j].db, ReadOnly(states[j].scaffold), r, stage, code, now);
  }
}
