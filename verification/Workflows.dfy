/** The workflow pointer and the stage rows (internal/store/workflow_state.go), as
    functions on the tables. */
module Workflows {
  import opened Prelude
  import opened Tables

  /** Makes `r` the project's workflow and advances its version. */
  function Point(db: Db, p: Id, r: Id, status: WorkflowStatus, now: Time): Db {
    var version := if p in db.workflows then db.workflows[p].version + 1 else 1;
    db.(workflows := db.workflows[p := Workflow(Some(r), status, version, now)])
  }

  /** One update of every workflow row that points at `r`. */
  function Advanced(ws: map<Id, Workflow>, r: Id, status: WorkflowStatus, now: Time): map<Id, Workflow> {
    map p | p in ws ::
      if ws[p].run == Some(r) then Workflow(ws[p].run, status, ws[p].version + 1, now) else ws[p]
  }

  predicate PointedAt(ws: map<Id, Workflow>, r: Id) { exists p | p in ws :: ws[p].run == Some(r) }

  /** Advances the workflow of `r`; a project whose workflow is another run keeps it. */
  function Bump(db: Db, r: Id, status: WorkflowStatus, now: Time): Result<Db> {
    if PointedAt(db.workflows, r) then Ok(db.(workflows := Advanced(db.workflows, r, status, now)))
    else if r >= |db.runs| then Err(Internal)
    else if db.runs[r].project in db.workflows then Ok(db)
    else Ok(Point(db, db.runs[r].project, r, status, now))
  }

  /** Advances a project's snapshot without touching its run or status. */
  function BumpSnapshot(db: Db, p: Id, now: Time): Db {
    if p in db.workflows
    then db.(workflows := db.workflows[p := db.workflows[p].(version := db.workflows[p].version + 1, updatedAt := now)])
    else db
  }

  /** The rows of an attempt that has just been created; existing rows are kept. */
  function InitStages(stages: map<(nat, Stage), StageRow>, a: Id, sequence: nat, now: Time):
      map<(nat, Stage), StageRow> {
    var row := StageRow(Some(a), Waiting, None, None, now, None);
    map[(sequence, Pm) := row, (sequence, Architect) := row, (sequence, Engineer) := row, (sequence, Qa) := row] + stages
  }

  /** The same, stage by stage. */
  function InitFirst(stages: map<(nat, Stage), StageRow>, a: Id, sequence: nat, now: Time, k: nat):
      map<(nat, Stage), StageRow>
    requires k <= |STAGES|
  {
    if k == 0 then stages
    else
      var before := InitFirst(stages, a, sequence, now, k - 1);
      var key := (sequence, STAGES[k - 1]);
      if key in before then before else before[key := StageRow(Some(a), Waiting, None, None, now, None)]
  }

  lemma {:induction false} InitFirstKeys(stages: map<(nat, Stage), StageRow>, a: Id, sequence: nat, now: Time, k: nat)
    requires k <= |STAGES|
    ensures var first := InitFirst(stages, a, sequence, now, k);
            (forall key :: key in first <==> key in stages || (key.0 == sequence && Position(key.1) < k)) &&
            forall key :: key in first ==>
              first[key] == if key in stages then stages[key] else StageRow(Some(a), Waiting, None, None, now, None)
  {
    if k > 0 {
      InitFirstKeys(stages, a, sequence, now, k - 1);
      assert Position(STAGES[k - 1]) == k - 1;
    }
  }

  lemma {:induction false} InitFirstIsAll(stages: map<(nat, Stage), StageRow>, a: Id, sequence: nat, now: Time)
    ensures InitFirst(stages, a, sequence, now, |STAGES|) == InitStages(stages, a, sequence, now)
  {
    InitFirstKeys(stages, a, sequence, now, |STAGES|);
  }

  /** Upsert of one stage row: the first start and the last end are kept. */
  function SetStage(run: Run, a: Id, sequence: nat, stage: Stage, status: StageStatus, now: Time, code: Option<string>): Run {
    var started := if status == InProgress then Some(now) else None;
    var finished := if status == Done || status == Broken || status == Cancelled then Some(now) else None;
    var key := (sequence, stage);
    var row :=
      if key in run.stages then
        var old_ := run.stages[key];
        StageRow(old_.attempt, status,
                 if old_.startedAt.Some? then old_.startedAt else started,
                 if finished.Some? then finished else old_.finishedAt, now, code)
      else StageRow(Some(a), status, started, finished, now, code);
    run.(stages := run.stages[key := row])
  }

  predicate Ends(status: StageStatus) { status == Done || status == Broken || status == Cancelled }

  /** A write of the row `key`: no other row changes, a start that is on record stays, and
      only an ending status moves the end. */
  ghost predicate StageWritten(run: Run, d: Run, key: (nat, Stage), status: StageStatus, now: Time, code: Option<string>) {
    d == run.(stages := d.stages) && d.stages.Keys == run.stages.Keys + {key} &&
    (forall k :: k in run.stages && k != key ==> d.stages[k] == run.stages[k]) &&
    var row := d.stages[key];
    row.status == status && row.errorCode == code &&
    (row.startedAt.None? ==> status != InProgress) && (Ends(status) ==> row.finishedAt == Some(now)) &&
    (key in run.stages ==>
      row.attempt == run.stages[key].attempt &&
      (run.stages[key].startedAt.Some? ==> row.startedAt == run.stages[key].startedAt) &&
      (!Ends(status) ==> row.finishedAt == run.stages[key].finishedAt))
  }

  datatype StageWrite = StageWrite(status: StageStatus, now: Time, code: Option<string>)

  /** A run's row after writes to one of its stages. */
  function AfterWrites(run: Run, a: Id, sequence: nat, stage: Stage, writes: seq<StageWrite>): Run {
    if writes == [] then run
    else
      var w := writes[|writes| - 1];
      SetStage(AfterWrites(run, a, sequence, stage, writes[..|writes| - 1]), a, sequence, stage, w.status, w.now, w.code)
  }

  /** Write `i` is the first with status InProgress. */
  predicate StartsAt(writes: seq<StageWrite>, i: nat) {
    i < |writes| && writes[i].status == InProgress && forall j :: 0 <= j < i ==> writes[j].status != InProgress
  }

  /** Write `i` is the last with an ending status. */
  predicate EndsAt(writes: seq<StageWrite>, i: nat) {
    i < |writes| && Ends(writes[i].status) && forall j :: i < j < |writes| ==> !Ends(writes[j].status)
  }

  /** `t` is the time of the first write with status InProgress. */
  ghost predicate FirstStart(writes: seq<StageWrite>, t: Option<Time>) {
    match t
    case None => forall i :: 0 <= i < |writes| ==> writes[i].status != InProgress
    case Some(at) => exists i: nat :: StartsAt(writes, i) && writes[i].now == at
  }

  /** `t` is the time of the last write with an ending status. */
  ghost predicate LastEnd(writes: seq<StageWrite>, t: Option<Time>) {
    match t
    case None => forall i :: 0 <= i < |writes| ==> !Ends(writes[i].status)
    case Some(at) => exists i: nat :: EndsAt(writes, i) && writes[i].now == at
  }

  /** Whatever happens to a stage of a new attempt, its row shows the first start, the last
      end and the last status, and the rows of other stages and attempts are as before. */
  lemma {:induction false} StageHistory(run: Run, a: Id, sequence: nat, stage: Stage, writes: seq<StageWrite>)
    requires (sequence, stage) in run.stages
    requires run.stages[(sequence, stage)].startedAt == None && run.stages[(sequence, stage)].finishedAt == None
    ensures var d, key := AfterWrites(run, a, sequence, stage, writes), (sequence, stage);
            d == run.(stages := d.stages) && d.stages.Keys == run.stages.Keys &&
            (forall k :: k in run.stages && k != key ==> d.stages[k] == run.stages[k]) &&
            FirstStart(writes, d.stages[key].startedAt) && LastEnd(writes, d.stages[key].finishedAt) &&
            (writes != [] ==>
              d.stages[key].status == writes[|writes| - 1].status && d.stages[key].errorCode == writes[|writes| - 1].code)
  {
    if writes != [] {
      var last := |writes| - 1;
      var before := AfterWrites(run, a, sequence, stage, writes[..last]);
      StageHistory(run, a, sequence, stage, writes[..last]);
      FirstStartNext(writes, before.stages[(sequence, stage)].startedAt);
      LastEndNext(writes, before.stages[(sequence, stage)].finishedAt);
    }
  }

  lemma FirstStartNext(writes: seq<StageWrite>, t: Option<Time>)
    requires writes != [] && FirstStart(writes[..|writes| - 1], t)
    ensures var w := writes[|writes| - 1];
            FirstStart(writes, if t.Some? then t else if w.status == InProgress then Some(w.now) else None)
  {
    var before := writes[..|writes| - 1];
    if t.Some? {
      var i: nat :| StartsAt(before, i) && before[i].now == t.value;
      assert StartsAt(writes, i);
    } else if writes[|before|].status == InProgress {
      assert StartsAt(writes, |before|);
    }
  }

  lemma LastEndNext(writes: seq<StageWrite>, t: Option<Time>)
    requires writes != [] && LastEnd(writes[..|writes| - 1], t)
    ensures var w := writes[|writes| - 1]; LastEnd(writes, if Ends(w.status) then Some(w.now) else t)
  {
    var before := writes[..|writes| - 1];
    if Ends(writes[|before|].status) {
      assert EndsAt(writes, |before|);
    } else if t.Some? {
      var i: nat :| EndsAt(before, i) && before[i].now == t.value;
      forall j | i < j < |writes| ensures !Ends(writes[j].status) {
        assert j < |before| ==> before[j] == writes[j];
      }
      assert EndsAt(writes, i);
    } else {
      forall j | 0 <= j < |writes| ensures !Ends(writes[j].status) {
        assert j < |before| ==> before[j] == writes[j];
      }
    }
  }

  /** Is attempt `a` preferred to attempt `b`?  Active ones first, then the higher number. */
  predicate Preferred(attempts: seq<Attempt>, a: Id, b: Id)
    requires a < |attempts| && b < |attempts|
  {
    if attempts[a].status.Active() != attempts[b].status.Active() then attempts[a].status.Active()
    else attempts[a].sequence > attempts[b].sequence
  }

  /** The attempt lifecycle events are booked on. */
  function ActiveAttempt(attempts: seq<Attempt>): (a: Option<Id>)
    ensures a.None? <==> attempts == []
    ensures a.Some? ==> a.value < |attempts|
  {
    if attempts == [] then None
    else
      var last := |attempts| - 1;
      var best := ActiveAttempt(attempts[..last]);
      if best.None? || Preferred(attempts, last, best.value) then Some(last) else best
  }

  /** No attempt is preferred to the one lifecycle events are booked on. */
  ghost predicate IsFavoured(attempts: seq<Attempt>, a: Id) {
    a < |attempts| && forall k :: 0 <= k < |attempts| ==> !Preferred(attempts, k, a)
  }

  lemma {:induction false} ActiveAttemptIsFavoured(attempts: seq<Attempt>)
    requires attempts != []
    ensures IsFavoured(attempts, ActiveAttempt(attempts).value)
  {
    var before := attempts[..|attempts| - 1];
    if before != [] {
      ActiveAttemptIsFavoured(before);
      forall k | 0 <= k < |attempts| ensures !Preferred(attempts, k, ActiveAttempt(attempts).value) {
        assert k < |before| ==> !Preferred(before, k, ActiveAttempt(before).value);
      }
    }
  }

  function OnActiveAttempt(db: Db, r: Id, stage: Stage, status: StageStatus, now: Time, code: Option<string>): Result<Db> {
    if r >= |db.runs| then Err(Internal)
    else match ActiveAttempt(db.runs[r].attempts)
      case None => Err(Internal)
      case Some(a) =>
        Ok(db.(runs := db.runs[r := SetStage(db.runs[r], a, db.runs[r].attempts[a].sequence, stage, status, now, code)]))
  }

  /** The stage write of run `r` went to the row of its favoured attempt, and nothing else
      changed. */
  ghost predicate StageBooked(db: Db, d: Db, r: Id, stage: Stage, status: StageStatus, now: Time, code: Option<string>) {
    r < |db.runs| == |d.runs| && d == db.(runs := db.runs[r := d.runs[r]]) &&
    exists a: Id :: IsFavoured(db.runs[r].attempts, a) &&
      StageWritten(db.runs[r], d.runs[r], (db.runs[r].attempts[a].sequence, stage), status, now, code)
  }

  lemma OnActiveAttemptBooks(db: Db, r: Id, stage: Stage, status: StageStatus, now: Time, code: Option<string>)
    ensures var res := OnActiveAttempt(db, r, stage, status, now, code);
            (res.Ok? <==> r < |db.runs| && db.runs[r].attempts != []) &&
            (res.Ok? ==> StageBooked(db, res.value, r, stage, status, now, code))
  {
    if r < |db.runs| && db.runs[r].attempts != [] {
      var run, d := db.runs[r], OnActiveAttempt(db, r, stage, status, now, code).value;
      var a := ActiveAttempt(run.attempts).value;
      ActiveAttemptIsFavoured(run.attempts);
      assert StageWritten(run, d.runs[r], (run.attempts[a].sequence, stage), status, now, code);
    }
  }

  /** What an event changes besides the log. */
  function ApplyEvent(db: Db, r: Id, kind: EventKind, now: Time): Result<Db> {
    match kind
    case RunStarted => Bump(db, r, RunningFlow, now)
    case StageStarted(stage) =>
      var db1 :- OnActiveAttempt(db, r, stage, InProgress, now, None);
      Bump(db1, r, RunningFlow, now)
    case StageArtifact(stage) =>
      var db1 :- OnActiveAttempt(db, r, stage, Done, now, None);
      Bump(db1, r, RunningFlow, now)
    case RunFailed(stage, code) =>
      var db1 :- if stage.Some? then
                   OnActiveAttempt(db, r, stage.value, Broken, now, if code == "" then None else Some(code))
                 else Ok(db);
      Bump(db1, r, FailedFlow, now)
    case RunCompleted => Bump(db, r, CompletedFlow, now)
    case _ => Ok(db)
  }

  /** The workflow status a run status stands for. */
  function FlowOf(status: Status): WorkflowStatus {
    match status
    case Queued => RunningFlow
    case Running => RunningFlow
    case Succeeded => CompletedFlow
    case Failed => FailedFlow
    case Interrupted => CancelledFlow
  }

  lemma {:induction false} HasMax(s: set<nat>)
    requires s != {}
    ensures exists m :: m in s && forall k :: k in s ==> k <= m
  {
    var x :| x in s;
    var rest := s - {x};
    if rest != {} {
      HasMax(rest);
      var m :| m in rest && forall k :: k in rest ==> k <= m;
      var top := if x > m then x else m;
      assert forall k :: k in s ==> k == x || k in rest;
      assert top in s && forall k :: k in s ==> k <= top;
    } else {
      assert forall k :: k in s ==> k == x || k in rest;
    }
  }

  function Attempts(stages: map<(nat, Stage), StageRow>): set<nat> { set key | key in stages :: key.0 }

  /** The highest attempt number that has stage rows, or 0. */
  function LatestAttempt(stages: map<(nat, Stage), StageRow>): (m: nat)
    ensures forall key :: key in stages ==> key.0 <= m
    ensures m == 0 || exists s :: (m, s) in stages
  {
    var s := Attempts(stages);
    assert forall key :: key in stages ==> key.0 in s;
    if s == {} then 0
    else
      HasMax(s);
      var m :| m in s && forall k | k in s :: k <= m;
      var key :| key in stages && key.0 == m;
      assert (m, key.1) in stages;
      m
  }

  /** Cancels what is in progress in the latest attempt. */
  function CancelStages(run: Run, now: Time): Run {
    var latest := LatestAttempt(run.stages);
    run.(stages := map key | key in run.stages ::
      if key.0 == latest && run.stages[key].status == InProgress
      then run.stages[key].(status := Cancelled, finishedAt := Some(now), updatedAt := now)
      else run.stages[key])
  }
}
