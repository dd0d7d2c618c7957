/** The start-up reconciliation keeps the invariant and leaves no run active
    (internal/store/run.go, MarkActiveRunsInterrupted). */
module RestartSteps {
  import opened Prelude
  import opened Tables
  import opened Workflows
  import opened Operations
  import opened Invariant
  import opened RunSteps

  lemma CancelStagesOk(run: Run, now: Time)
    requires RunOk(run)
    ensures RunOk(CancelStages(run, now)) && RunKept(run, CancelStages(run, now))
  {
  }

  /** Is the row's workflow one of an active run among the first `k`? */
  predicate PointsAtActive(db: Db, w: Workflow, k: nat) {
    w.run.Some? && w.run.value < k && w.run.value < |db.runs| && db.runs[w.run.value].status.Active()
  }

  /** The workflow rows once the workflows of the active ones among the first `k` runs are
      cancelled. */
  function CancelledFlows(db: Db, k: nat, now: Time): map<Id, Workflow> {
    map p | p in db.workflows ::
      if PointsAtActive(db, db.workflows[p], k)
      then Workflow(db.workflows[p].run, CancelledFlow, db.workflows[p].version + 1, now) else db.workflows[p]
  }

  /** What the first phase makes of the tables: among the first `k` runs the active ones have
      their stages cancelled, and the workflows that point at them. */
  ghost predicate OnlyCancelled(db: Db, k: nat, now: Time, d: Db) {
    d == db.(runs := d.runs, workflows := CancelledFlows(db, k, now)) && |d.runs| == |db.runs| &&
    forall r :: 0 <= r < |db.runs| ==>
      d.runs[r] == if r < k && db.runs[r].status.Active() then CancelStages(db.runs[r], now) else db.runs[r]
  }

  /** After the first `k` runs. */
  ghost predicate CancelledFirst(db: Db, ro: FileSet, k: nat, now: Time, d: Db) {
    k <= |db.runs| && CancelActive(db, k, now) == Ok(d) && Inv(d, ro) && Grows(db, d) && OnlyCancelled(db, k, now, d)
  }

  lemma CancelNone(db: Db, ro: FileSet, now: Time)
    requires Inv(db, ro)
    ensures CancelledFirst(db, ro, 0, now, db)
  {
    hide Inv, CancelStages, Bump;
    assert CancelledFlows(db, 0, now) == db.workflows;
  }

  /** One active run is cancelled. */
  lemma CancelOne(db: Db, ro: FileSet, r: Id, now: Time) returns (d: Db)
    requires Inv(db, ro) && r < |db.runs| && db.runs[r].status.Active()
    ensures d == db.(runs := db.runs[r := CancelStages(db.runs[r], now)], workflows := Bumped(db, r, CancelledFlow, now))
    ensures Bump(db.(runs := db.runs[r := CancelStages(db.runs[r], now)]), r, CancelledFlow, now) == Ok(d)
    ensures Inv(d, ro) && Grows(db, d)
  {
    hide VersionOk, Grows;
    var row := CancelStages(db.runs[r], now);
    CancelStagesOk(db.runs[r], now);
    StillSingle(db, r, row);
    RunWriteKeeps(db, ro, r, row, CancelledFlow, now);
    d := db.(runs := db.runs[r := row], workflows := Bumped(db, r, CancelledFlow, now));
  }

  lemma CancelNext(db: Db, k: nat, now: Time, db1: Db)
    requires k < |db.runs| == |db1.runs| && CancelActive(db, k, now) == Ok(db1)
    ensures CancelActive(db, k + 1, now) ==
            if !db1.runs[k].status.Active() then Ok(db1)
            else Bump(db1.(runs := db1.runs[k := CancelStages(db1.runs[k], now)]), k, CancelledFlow, now)
  {
  }

  /** The workflow row of project `p` in the next step. */
  lemma CancelNextFlow(db: Db, k: nat, now: Time, db1: Db, p: Id)
    requires PointersOk(db) && k < |db.runs| && p in db.workflows
    requires db1.workflows == CancelledFlows(db, k, now) && k < |db1.runs| && db1.runs[k].project == db.runs[k].project
    ensures var ws := if db.runs[k].status.Active() then Bumped(db1, k, CancelledFlow, now) else db1.workflows;
            p in ws && ws[p] == CancelledFlows(db, k + 1, now)[p]
  {
    var w := db.workflows[p];
    assert PointsAtActive(db, w, k + 1) <==> PointsAtActive(db, w, k) || (w.run == Some(k) && db.runs[k].status.Active());
  }

  lemma OnlyCancelledNext(db: Db, k: nat, now: Time, db1: Db, d: Db)
    requires PointersOk(db) && k < |db.runs| && OnlyCancelled(db, k, now, db1)
    requires d == if db.runs[k].status.Active()
                  then db1.(runs := db1.runs[k := CancelStages(db.runs[k], now)], workflows := Bumped(db1, k, CancelledFlow, now))
                  else db1
    ensures OnlyCancelled(db, k + 1, now, d)
  {
    hide CancelStages;
    forall p | p in db.workflows ensures p in d.workflows && d.workflows[p] == CancelledFlows(db, k + 1, now)[p] {
      CancelNextFlow(db, k, now, db1, p);
    }
    assert d.workflows.Keys <= db.workflows.Keys;
    assert d.workflows == CancelledFlows(db, k + 1, now);
  }

  /** The next run, active or not. */
  lemma CancelIfActive(db: Db, ro: FileSet, k: nat, now: Time, db1: Db) returns (d: Db)
    requires k < |db.runs| && PointersOk(db) && CancelledFirst(db, ro, k, now, db1)
    ensures CancelledFirst(db, ro, k + 1, now, d)
  {
    hide Inv, Grows, CancelStages, Bump;
    CancelNext(db, k, now, db1);
    d := db1;
    if db1.runs[k].status.Active() {
      d := CancelOne(db1, ro, k, now);
      GrowsTransitive(db, db1, d);
    }
    OnlyCancelledNext(db, k, now, db1, d);
  }

  lemma {:induction false} CancelActiveKeeps(db: Db, ro: FileSet, k: nat, now: Time) returns (d: Db)
    requires Inv(db, ro) && PointersOk(db) && k <= |db.runs|
    ensures CancelledFirst(db, ro, k, now, d)
  {
    hide *;
    if k == 0 {
      d := db;
      CancelNone(db, ro, now);
    } else {
      d := CancelActiveKeeps(db, ro, k - 1, now);
      d := CancelIfActive(db, ro, k - 1, now, d);
    }
  }

  lemma InterruptedRunOk(run: Run, now: Time)
    requires RunOk(run)
    ensures RunOk(InterruptedRun(run, now)) && RunKept(run, InterruptedRun(run, now))
    ensures !InterruptedRun(run, now).status.Active()
  {
  }

  /** The row of a run after start-up: an active run is interrupted, and what was in progress
      in its last attempt is cancelled. */
  ghost predicate StartedUp(run: Run, row: Run, now: Time) {
    if run.status.Active() then
      row.status == Interrupted && row.activeAttempt == None && |row.attempts| == |run.attempts| &&
      row.log == run.log && row.artifacts == run.artifacts && row.stages.Keys == run.stages.Keys &&
      (forall k :: 0 <= k < |run.attempts| ==>
        row.attempts[k].status == if run.attempts[k].status.Active() then Interrupted else run.attempts[k].status) &&
      forall key :: key in run.stages ==>
        row.stages[key] == if key.0 == |run.attempts| && run.stages[key].status == InProgress
                           then run.stages[key].(status := Cancelled, finishedAt := Some(now), updatedAt := now)
                           else run.stages[key]
    else row == run
  }

  lemma StartsUp(run: Run, now: Time)
    requires RunOk(run)
    ensures StartedUp(run, if run.status.Active() then InterruptedRun(CancelStages(run, now), now) else run, now)
  {
    assert (|run.attempts|, Pm) in run.stages;
    assert LatestAttempt(run.stages) == |run.attempts|;
  }

  /** After start-up no run is active: active runs are interrupted with their attempts and
      stages, and exactly the workflows that point at them are cancelled, with the state
      version raised by one.  Everything else is as before. */
  lemma MarkInterruptedKeeps(db: Db, ro: FileSet, now: Time)
    requires Inv(db, ro)
    ensures var res := MarkInterrupted(db, now);
            res.Ok? && Inv(res.value, ro) && Grows(db, res.value) &&
            res.value == db.(runs := res.value.runs, workflows := CancelledFlows(db, |db.runs|, now)) &&
            |res.value.runs| == |db.runs| &&
            forall r :: 0 <= r < |db.runs| ==> StartedUp(db.runs[r], res.value.runs[r], now)
  {
    hide VersionOk, CancelActive, Grows, StartedUp, RunOk;
    InvPointers(db, ro);
    var db1 := CancelActiveKeeps(db, ro, |db.runs|, now);
    var d := MarkInterrupted(db, now).value;
    forall r | 0 <= r < |db1.runs|
      ensures RunOk(d.runs[r]) && RunKept(db1.runs[r], d.runs[r]) && !d.runs[r].status.Active()
    {
      InterruptedRunOk(db1.runs[r], now);
    }
    InterruptedSettles(db1, ro, d);
    GrowsTransitive(db, db1, d);
    forall r | 0 <= r < |db.runs| ensures StartedUp(db.runs[r], d.runs[r], now) {
      StartsUp(db.runs[r], now);
    }
  }

  lemma InterruptedSettles(db: Db, ro: FileSet, d: Db)
    requires Inv(db, ro) && d == db.(runs := d.runs) && |d.runs| == |db.runs|
    requires forall r :: 0 <= r < |db.runs| ==>
               RunOk(d.runs[r]) && RunKept(db.runs[r], d.runs[r]) && !d.runs[r].status.Active()
    ensures Inv(d, ro) && Grows(db, d)
  {
    hide VersionOk, RunOk;
    assert Grows(db, d);
    forall p | 0 <= p < |d.projects| ensures ProjectOk(d, p) {
      assert ProjectOk(db, p);
      ProjectGrows(db, d, p);
    }
    Settle(db, ro, d);
  }
}
