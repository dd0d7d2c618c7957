/** A loop that meets no obstacle succeeds, from any reachable state; and what such a success
    makes reachable. */
module Successes {
  import opened Prelude
  import opened Tables
  import opened Workflows
  import opened Operations
  import opened Invariant
  import opened RunSteps
  import opened VersionSteps
  import opened RestartSteps
  import opened Reading
  import opened ReadingLaws
  import opened Lineage
  import opened Calls
  import opened Systems
  import opened SystemSafety
  import opened Interference
  import opened FlowLaws
  import opened LateWrites
  import opened AgentModel
  import opened AgentPaths
  import opened AgentStages
  import opened AgentBooks
  import opened AgentMoves
  import opened AgentLaws
  import opened AgentLog
  import AgentSteps
  import EventStreams
  import opened Scenarios
  import Gate

  /* ---- Paths without interference ---- */

  /** Nobody else has acted and no call was lost. */
  ghost predicate IsSmooth(path: seq<Moment>) {
    forall k :: 0 < k < |path| ==> path[k].move.Own? && !path[k].move.lost
  }

  lemma SmoothNext(path: seq<Moment>, q: seq<Moment>, move: Move)
    requires IsSmooth(path) && AgentSteps.GoesBy(path, q, move) && move.Own? && !move.lost
    ensures IsSmooth(q)
  {
    forall k | 0 < k < |q| ensures q[k].move.Own? && !q[k].move.lost {
      assert k < |path| ==> path[k] == q[k];
    }
  }

  lemma {:induction false} SmoothIsClean(path: seq<Moment>)
    requires IsSmooth(path)
    ensures IsClean(BookOf(path)) && !HasLost(path)
  {
    LostIsFact(path);
    MeddledIsFact(path);
  }

  lemma OwnMoveOnward(x: Moment, y: Moment, scaffold: seq<Snapshot>)
    requires Reachable(Alone(x.db, x.agent, scaffold)) && Leads(x, y, scaffold) && y.move.Own?
    ensures Reachable(Alone(y.db, y.agent, scaffold))
  {
    hide Serve, Acts, Tolerable, MarkInterrupted, Reachable;
    Onward(Alone(x.db, x.agent, scaffold), Act(0, y.move.action, y.move.lost, y.move.now), Alone(y.db, y.agent, scaffold));
  }

  /** A path on which nobody else acts is a run of the system. */
  lemma {:induction false} OwnPathIsRun(path: seq<Moment>, scaffold: seq<Snapshot>, k: nat)
    requires IsPath(path, scaffold) && IsSmooth(path) && k < |path|
    requires Reachable(Alone(path[0].db, path[0].agent, scaffold))
    ensures Reachable(Alone(path[k].db, path[k].agent, scaffold))
  {
    hide Reachable, Leads;
    if k > 0 {
      OwnPathIsRun(path, scaffold, k - 1);
      assert LeadsAt(path, k, scaffold);
      OwnMoveOnward(path[k - 1], path[k], scaffold);
    }
  }

  /** The state at the end of a course without interference is reachable. */
  lemma SmoothIsReachable(start: Db, scaffold: seq<Snapshot>, r: Id, world: World, path: seq<Moment>)
    requires Course(start, scaffold, r, world, path) && IsSmooth(path) && Reachable(Alone(start, Booting(r), scaffold))
    ensures Reachable(Alone(Last(path).db, Last(path).agent, scaffold))
  {
    hide Reachable, LeadsAt, SystemOk, AllowedAt;
    OwnPathIsRun(path, scaffold, |path| - 1);
  }

  /* ---- The undisturbed loop ---- */

  /** A world in which every call of the loop goes through, at the same time. */
  function Friendly(now: Time): World { World(_ => Failure(0), _ => Response(true, now), _ => true, false) }

  /** The loop is under way on a smooth course, with the stages done; its last draft is the
      only open one. */
  ghost predicate Underway(start: Db, scaffold: seq<Snapshot>, now: Time, path: seq<Moment>, a: Agent, done: set<Stage>) {
    Course(start, scaffold, a.run, Friendly(now), path) && IsSmooth(path) && Last(path).agent == a && a.Working? &&
    BookOf(path).done == done && BookOf(path).open == OnlyCurrent(DraftOf(a))
  }

  lemma Boots(start: Db, scaffold: seq<Snapshot>, r: Id, i: Id, now: Time) returns (q: seq<Moment>, a: Agent)
    requires SystemOk(Alone(start, Booting(r), scaffold)) && r < |start.runs|
    requires i < |start.iterations| && start.iterations[i].run == Some(r)
    ensures Underway(start, scaffold, now, q, a, {}) && a == Working(r, a.attempt, i, None)
  {
    hide Course, SystemOk, BookNext;
    var attempt := ActiveAttempt(start, scaffold, r);
    var path := [Moment(start, Booting(r), Others)];
    CourseStarts(start, scaffold, r, Friendly(now));
    q := AgentSteps.Boots(start, scaffold, r, Friendly(now), path, attempt, i);
    SmoothNext(path, q, Own(Boot(attempt, i), false, 0));
    a := Working(r, attempt, i, None);
  }

  lemma ActiveAttempt(start: Db, scaffold: seq<Snapshot>, r: Id) returns (attempt: Id)
    requires SystemOk(Alone(start, Booting(r), scaffold)) && r < |start.runs|
    ensures start.runs[r].activeAttempt == Some(attempt)
  {
    hide VersionOk;
    assert AgentOk(start, Alone(start, Booting(r), scaffold).agents[0]);
    assert RunOk(start.runs[r]);
    attempt := |start.runs[r].attempts| - 1;
  }

  lemma Records(start: Db, scaffold: seq<Snapshot>, now: Time, path: seq<Moment>, a: Agent, done: set<Stage>, s: Stage)
      returns (q: seq<Moment>)
    requires Underway(start, scaffold, now, path, a, done)
    ensures Underway(start, scaffold, now, q, a, done + {s})
  {
    hide Course, BookOf, RecordArtifact;
    q := AgentSteps.Records(start, scaffold, a.run, Friendly(now), path, s, "", false, now);
    SmoothNext(path, q, Own(Record(s, ""), false, now));
  }

  lemma Writes(start: Db, scaffold: seq<Snapshot>, now: Time, path: seq<Moment>, a: Agent, done: set<Stage>, content: string)
      returns (q: seq<Moment>, v: Id)
    requires Underway(start, scaffold, now, path, a, done) && a.draft.None?
    ensures Underway(start, scaffold, now, q, a.(draft := Some(Draft(v, content))), done)
  {
    hide Course, BookOf, CreateDraft;
    v := |Last(path).db.versions|;
    q := AgentSteps.Writes(start, scaffold, a.run, Friendly(now), path, content, false, now);
    SmoothNext(path, q, Own(Write(content), false, now));
  }

  /** The loop has succeeded on a smooth course: its last move has accepted version `v`. */
  ghost predicate Through(start: Db, scaffold: seq<Snapshot>, now: Time, path: seq<Moment>, r: Id, v: Id) {
    Course(start, scaffold, r, Friendly(now), path) && IsSmooth(path) && Last(path).agent == Ending(r) &&
    RunEndsAt(path, |path| - 1) && Last(path).move.action == Accept && DraftOf(path[|path| - 2].agent) == Some(v)
  }

  lemma Accepts(start: Db, scaffold: seq<Snapshot>, now: Time, path: seq<Moment>, a: Agent) returns (q: seq<Moment>)
    requires Underway(start, scaffold, now, path, a, ALL_STAGES) && a.draft.Some?
    requires Gate.Passes(a.draft.value.content) && BaseIsKept(start, a)
    ensures Through(start, scaffold, now, q, a.run, a.draft.value.version)
  {
    hide Course, Gate.Passes, Promote, BookOf;
    q := AgentSteps.Accepts(start, scaffold, a.run, Friendly(now), path, a.draft.value.version, false, now);
    BaseStays(start, scaffold, path, q, a, now);
    SmoothNext(path, q, Own(Accept, false, now));
  }

  /** The run's iteration was started from the version that is stable at the start. */
  ghost predicate BaseIsKept(start: Db, a: Agent) {
    a.Working? && a.run < |start.runs| && start.runs[a.run].project < |start.projects| &&
    a.iteration < |start.iterations| && start.iterations[a.iteration].base == start.projects[start.runs[a.run].project].stable
  }

  lemma BaseStays(start: Db, scaffold: seq<Snapshot>, path: seq<Moment>, q: seq<Moment>, a: Agent, now: Time)
    requires Course(start, scaffold, a.run, Friendly(now), q) && BaseIsKept(start, a)
    ensures !BaseMoved(start, Last(q).db, a)
  {
    hide LeadsAt, SystemOk, AllowedAt;
    PathIsSafe(q, scaffold, |q| - 1);
    assert IterationKept(start.iterations[a.iteration], Last(q).db.iterations[a.iteration]);
  }

  /** The stages before the engineer's. */
  lemma Designs(start: Db, scaffold: seq<Snapshot>, r: Id, i: Id, now: Time) returns (q: seq<Moment>, a: Agent)
    requires SystemOk(Alone(start, Booting(r), scaffold)) && r < |start.runs|
    requires i < |start.iterations| && start.iterations[i].run == Some(r)
    ensures Underway(start, scaffold, now, q, a, {Pm, Architect}) && a == Working(r, a.attempt, i, None)
  {
    hide *;
    q, a := Boots(start, scaffold, r, i, now);
    q := Records(start, scaffold, now, q, a, {}, Pm);
    q := Records(start, scaffold, now, q, a, {} + {Pm}, Architect);
    assert {} + {Pm} + {Architect} == {Pm, Architect};
  }

  /** The engineer's stage and the gate's. */
  lemma Builds(start: Db, scaffold: seq<Snapshot>, now: Time, path: seq<Moment>, a: Agent, content: string)
      returns (q: seq<Moment>, v: Id)
    requires Underway(start, scaffold, now, path, a, {Pm, Architect}) && a.draft.None?
    ensures Underway(start, scaffold, now, q, a.(draft := Some(Draft(v, content))), ALL_STAGES)
  {
    hide Course, BookOf;
    q, v := Writes(start, scaffold, now, path, a, {Pm, Architect}, content);
    var b := a.(draft := Some(Draft(v, content)));
    q := Records(start, scaffold, now, q, b, {Pm, Architect}, Engineer);
    q := Records(start, scaffold, now, q, b, {Pm, Architect} + {Engineer}, Qa);
    assert {Pm, Architect} + {Engineer} + {Qa} == ALL_STAGES;
  }

  /** Undisturbed, and with content that passes the gate, the loop gets through. */
  lemma Completes(start: Db, scaffold: seq<Snapshot>, r: Id, i: Id, content: string, now: Time) returns (q: seq<Moment>, v: Id)
    requires SystemOk(Alone(start, Booting(r), scaffold)) && Gate.Passes(content)
    requires r < |start.runs| && start.runs[r].project < |start.projects|
    requires i < |start.iterations| && start.iterations[i].run == Some(r)
    requires start.iterations[i].base == start.projects[start.runs[r].project].stable
    ensures Through(start, scaffold, now, q, r, v)
  {
    hide Gate.Passes, SystemOk, Underway, Through;
    var a;
    q, a := Designs(start, scaffold, r, i, now);
    q, v := Builds(start, scaffold, now, q, a, content);
    q := Accepts(start, scaffold, now, q, a.(draft := Some(Draft(v, content))));
  }

  /* ---- Runs that have ended stay so ---- */

  lemma OwnMoveKeepsEnded(x: Moment, y: Moment, scaffold: seq<Snapshot>, q: Id)
    requires SystemOk(Alone(x.db, x.agent, scaffold)) && Leads(x, y, scaffold) && y.move.Own?
    requires q < |x.db.runs| && !x.db.runs[q].status.Active() && q != x.agent.run
    ensures q < |y.db.runs| && !y.db.runs[q].status.Active() && y.agent.run == x.agent.run
  {
    hide Effect, Gate.Passes, Inv, Tolerable, Grows;
    var s := Alone(x.db, x.agent, scaffold);
    assert AgentOk(x.db, s.agents[0]);
    assert Alone(y.db, y.agent, scaffold).agents[0] == y.agent;
    EffectKeeps(s, x.agent, y.move.action, y.move.lost, y.move.now);
  }

  /** Run `q` has ended, and it is not the agent's. */
  ghost predicate EndedBeside(m: Moment, r: Id, q: Id) {
    m.agent.run == r && q != r && q < |m.db.runs| && !m.db.runs[q].status.Active()
  }

  lemma MoveAtKeepsEnded(path: seq<Moment>, scaffold: seq<Snapshot>, k: nat, r: Id, q: Id)
    requires IsPath(path, scaffold) && IsSmooth(path) && 0 < k < |path|
    requires SystemOk(Alone(path[k - 1].db, path[k - 1].agent, scaffold)) && EndedBeside(path[k - 1], r, q)
    ensures EndedBeside(path[k], r, q)
  {
    hide Leads, SystemOk;
    assert LeadsAt(path, k, scaffold);
    OwnMoveKeepsEnded(path[k - 1], path[k], scaffold, q);
  }

  lemma {:induction false} OwnPathKeepsEnded(path: seq<Moment>, scaffold: seq<Snapshot>, k: nat, r: Id, q: Id)
    requires IsPath(path, scaffold) && IsSmooth(path) && k < |path| && SystemOk(Alone(path[0].db, path[0].agent, scaffold))
    requires EndedBeside(path[0], r, q)
    ensures EndedBeside(path[k], r, q)
  {
    hide *;
    if k > 0 {
      OwnPathKeepsEnded(path, scaffold, k - 1, r, q);
      PathIsSafe(path, scaffold, k - 1);
      MoveAtKeepsEnded(path, scaffold, k, r, q);
    }
  }

  /* ---- What a success leaves ---- */

  ghost predicate KeepsRunCount(db: Db, res: Result<Db>) { res.Ok? ==> |res.value.runs| == |db.runs| }

  lemma BumpKeepsCount(db: Db, run: Id, a: Id, stage: Stage, ref: string, now: Time)
    ensures KeepsRunCount(db, RecordArtifact(db, run, a, stage, ref, now))
    ensures KeepsRunCount(db, BeginAttempt(db, run, a, now)) && KeepsRunCount(db, FailRun(db, run, now))
  {
  }

  lemma EventKeepsCount(db: Db, run: Id, kind: EventKind, now: Time)
    ensures KeepsRunCount(db, AppendEvent(db, run, kind, now))
  {
    hide SetStage;
  }

  lemma DraftKeepsCount(db: Db, v: Id, owner: Option<(Id, Id)>, now: Time)
    ensures KeepsRunCount(db, TablesOf(Promote(db, v, owner, now)))
    ensures KeepsRunCount(db, TablesOf(FailDraft(db, v, owner, now)))
  {
  }

  lemma OwnCallsKeepRuns(db: Db, c: AgentCall, now: Time)
    ensures KeepsRunCount(db, Perform(db, c, now))
  {
    hide AppendEvent, RecordArtifact, BeginAttempt, EndOwner, FailRun;
    match c {
      case DoEvent(run, kind) => EventKeepsCount(db, run, kind, now);
      case DoArtifact(run, a, stage, ref) => BumpKeepsCount(db, run, a, stage, ref, now);
      case DoBegin(run, a) => BumpKeepsCount(db, run, a, Qa, "", now);
      case DoDraft(_, _, _) =>
      case DoPromote(v, owner) => DraftKeepsCount(db, v, owner, now);
      case DoFailDraft(v, owner) => DraftKeepsCount(db, v, owner, now);
      case DoFailRun(run) => BumpKeepsCount(db, run, 0, Qa, "", now);
    }
  }

  lemma OwnMoveKeepsRuns(x: Moment, y: Moment, scaffold: seq<Snapshot>)
    requires Leads(x, y, scaffold) && y.move.Own?
    ensures |y.db.runs| == |x.db.runs|
  {
    hide Perform, Tolerable, CallOf, Enabled;
    var s := Alone(x.db, x.agent, scaffold);
    if Effect(s, x.agent, y.move.action, y.move.lost, y.move.now).Ok? {
      OwnCallsKeepRuns(x.db, CallOf(s, x.agent, y.move.action).value, y.move.now);
    }
  }

  lemma {:induction false} OwnPathKeepsRuns(path: seq<Moment>, scaffold: seq<Snapshot>, k: nat)
    requires IsPath(path, scaffold) && IsSmooth(path) && k < |path|
    ensures |path[k].db.runs| == |path[0].db.runs|
  {
    hide Leads;
    if k > 0 {
      OwnPathKeepsRuns(path, scaffold, k - 1);
      assert LeadsAt(path, k, scaffold);
      OwnMoveKeepsRuns(path[k - 1], path[k], scaffold);
    }
  }

  /** Project `p` shows run `r`, which has succeeded, and version `v`, which it made. */
  ghost predicate Shows(db: Db, p: Id, r: Id, v: Id) {
    p < |db.projects| && r < |db.runs| && db.runs[r].project == p && db.runs[r].status == Succeeded &&
    db.projects[p].stable == Some(v) && MadeFor(db, v, r) && AllProven(db.runs[r]) &&
    p in db.workflows && db.workflows[p].run == Some(r) && db.workflows[p].status == CompletedFlow
  }

  lemma ThroughShows(start: Db, scaffold: seq<Snapshot>, now: Time, path: seq<Moment>, r: Id, v: Id)
    requires Through(start, scaffold, now, path, r, v) && |start.runs| == r + 1
    ensures var db := Last(path).db;
            r < |start.runs| && Shows(db, start.runs[r].project, r, v) && Grows(start, db) && |db.runs| == |start.runs|
  {
    hide IsPath, AppPasses, AllowedAt, Inv, SystemOk;
    var k := |path| - 1;
    OwnPathKeepsRuns(path, scaffold, k);
    ThroughCloses(start, scaffold, now, path, r, v);
    ClosedShows(start, scaffold, path[k - 1], path[k], r, v);
  }

  lemma ThroughCloses(start: Db, scaffold: seq<Snapshot>, now: Time, path: seq<Moment>, r: Id, v: Id)
    requires Through(start, scaffold, now, path, r, v)
    ensures Closes(start, scaffold, path[|path| - 2], Last(path), {}, true) && path[|path| - 2].agent.run == r
  {
    hide IsPath, Closes, BookOf, SystemOk, AllowedAt;
    SmoothIsClean(path);
    PathIsSafe(path, scaffold, |path| - 2);
    EndCloses(start, scaffold, r, Friendly(now), path, |path| - 1);
  }

  lemma ClosedShows(start: Db, scaffold: seq<Snapshot>, x: Moment, y: Moment, r: Id, v: Id)
    requires Closes(start, scaffold, x, y, {}, true) && y.move.action.Accept? && x.agent.run == r
    requires DraftOf(x.agent) == Some(v) && |y.db.runs| == |start.runs| == r + 1
    ensures Shows(y.db, start.runs[r].project, r, v)
  {
    hide AppPasses;
    assert RunKept(start.runs[r], y.db.runs[r]);
    assert ProjectOk(y.db, start.runs[r].project);
  }

  lemma ShownProvenance(db: Db, p: Id, r: Id, v: Id)
    requires Shows(db, p, r, v)
    ensures Provenance(db.versions, db.iterations, Some(v)) == Some(r) && Agree(db, p, r)
  {
    assert Nearest(db.versions, db.iterations, v, 0, r);
    ProvenanceIs(db.versions, db.iterations, v, 0, r);
  }

  /** A new run in a state without agents, its loop about to start. */
  lemma LoopStarts(s: System, p: Id, now: Time) returns (start: Db)
    requires Reachable(s) && s.agents == map[] && p < |s.db.projects| && !HasActiveRun(s.db, p)
    ensures Reachable(Alone(start, Booting(|s.db.runs|), s.scaffold)) && RunAdded(s.db, start, p, now)
    ensures Grows(s.db, start)
  {
    hide Reachable, RunAdded, Grows;
    start := NextRun(s, p, 0, now);
    assert s.agents[0 := Booting(|s.db.runs|)] == map[0 := Booting(|s.db.runs|)];
  }

  lemma LoopGetsThrough(start: Db, scaffold: seq<Snapshot>, r: Id, i: Id, content: string, now: Time) returns (d: Db, v: Id)
    requires Reachable(Alone(start, Booting(r), scaffold)) && Gate.Passes(content)
    requires |start.runs| == r + 1 && start.runs[r].project < |start.projects|
    requires i < |start.iterations| && start.iterations[i].run == Some(r)
    requires start.iterations[i].base == start.projects[start.runs[r].project].stable
    ensures Reachable(Alone(d, Ending(r), scaffold)) && Grows(start, d) && |d.runs| == |start.runs|
    ensures Shows(d, start.runs[r].project, r, v) && EndedKept(start, d, r)
  {
    hide Reachable, Course, Gate.Passes, SystemOk, Shows;
    ReachableIsSafe(Alone(start, Booting(r), scaffold));
    var path;
    path, v := Completes(start, scaffold, r, i, content, now);
    d := Last(path).db;
    ThroughShows(start, scaffold, now, path, r, v);
    SmoothIsReachable(start, scaffold, r, Friendly(now), path);
    ThroughKeepsEnded(start, scaffold, now, path, r, v);
  }

  /** Other runs that had ended have ended. */
  ghost predicate EndedKept(db: Db, d: Db, r: Id) {
    |db.runs| <= |d.runs| &&
    forall q :: 0 <= q < |db.runs| && q != r && !db.runs[q].status.Active() ==> !d.runs[q].status.Active()
  }

  lemma ThroughKeepsEnded(start: Db, scaffold: seq<Snapshot>, now: Time, path: seq<Moment>, r: Id, v: Id)
    requires Through(start, scaffold, now, path, r, v)
    ensures EndedKept(start, Last(path).db, r)
  {
    hide IsPath, SystemOk, AllowedAt;
    var d, n := Last(path).db, |path| - 1;
    OwnPathKeepsRuns(path, scaffold, n);
    forall q | 0 <= q < |start.runs| && q != r && !start.runs[q].status.Active() ensures !d.runs[q].status.Active() {
      OwnPathKeepsEnded(path, scaffold, n, r, q);
    }
  }

  /** The new run has ended, and no other was active. */
  lemma NoneActive(db: Db, start: Db, d: Db, p: Id, now: Time)
    requires RunAdded(db, start, p, now) && !HasActiveRun(db, p) && Grows(start, d) && |d.runs| == |start.runs|
    requires EndedKept(start, d, |db.runs|) && d.runs[|db.runs|].status == Succeeded
    ensures !HasActiveRun(d, p)
  {
    forall q | 0 <= q < |d.runs| ensures !ActiveIn(d, q, p) {
      assert RunKept(start.runs[q], d.runs[q]);
      assert q < |db.runs| ==> !ActiveIn(db, q, p) && start.runs[q] == db.runs[q];
    }
  }

  /** From every reachable state without agents, a project with no active run can have a new
      run that succeeds, for any content that passes the gate. */
  lemma SucceedsAgain(s: System, p: Id, content: string, now: Time) returns (s': System, v: Id)
    requires Reachable(s) && s.agents == map[] && p < |s.db.projects| && !HasActiveRun(s.db, p) && Gate.Passes(content)
    ensures Reachable(s') && s'.agents == map[] && s'.scaffold == s.scaffold && Grows(s.db, s'.db)
    ensures |s'.db.runs| == |s.db.runs| + 1 && Shows(s'.db, p, |s.db.runs|, v) && !HasActiveRun(s'.db, p)
  {
    hide Reachable, Gate.Passes, Grows, AllProven, InitStages;
    var start := LoopStarts(s, p, now);
    var d;
    d, v := LoopGetsThrough(start, s.scaffold, |s.db.runs|, |s.db.iterations|, content, now);
    s' := AgentLeaves(d, |s.db.runs|, s.scaffold, now);
    GrowsTransitive(s.db, start, d);
    NoneActive(s.db, start, d, p, now);
  }

  lemma AgentLeaves(d: Db, r: Id, scaffold: seq<Snapshot>, now: Time) returns (s: System)
    requires Reachable(Alone(d, Ending(r), scaffold))
    ensures Reachable(s) && s == System(d, map[], scaffold)
  {
    hide Reachable;
    Leaves(Alone(d, Ending(r), scaffold), 0, now);
    s := System(d, map[], scaffold);
    assert map[0 := Ending(r)] - {0} == map[];
  }

  /* ---- A new compile result after a success ---- */

  /** A compile result that no artifact has. */
  lemma FreshRef(artifacts: seq<Artifact>) returns (ref: string)
    ensures forall x :: x in artifacts ==> |x.ref| < |ref|
  {
    if artifacts == [] {
      ref := "x";
    } else {
      var last := artifacts[|artifacts| - 1];
      ref := FreshRef(artifacts[..|artifacts| - 1]);
      ref := if |ref| > |last.ref| then ref else last.ref + "x";
      assert forall x :: x in artifacts <==> x in artifacts[..|artifacts| - 1] || x == last;
    }
  }

  lemma ResultKeepsProven(run: Run, a: Id, ref: string, now: Time)
    requires RunOk(run) && a < |run.attempts| && AllProven(run)
    ensures AllProven(ArtifactRow(run, a, Qa, ref, now))
  {
    var row := ArtifactRow(run, a, Qa, ref, now);
    assert (a + 1, Qa) in run.stages && row.stages.Keys == run.stages.Keys;
    assert (|run.attempts|, Pm) in run.stages && (|run.attempts|, Pm) in row.stages;
    assert LatestAttempt(run.stages) == |run.attempts| == LatestAttempt(row.stages);
    forall s: Stage ensures StageProven(row, s) {
      assert StageProven(run, s);
      var attempt := run.stages[(|run.attempts|, s)].attempt;
      var x :| x in run.artifacts && x.stage == s && (attempt == None || attempt == Some(x.attempt));
      assert x in row.artifacts;
    }
  }

  /** A succeeded run with its preview, and no agent left. */
  lemma FirstSuccess(scaffold: seq<Snapshot>, now: Time) returns (s: System, v: Id)
    requires ScaffoldOk(scaffold)
    ensures Reachable(s) && s.agents == map[] && s.scaffold == scaffold && |s.db.runs| == 1 && Shows(s.db, 0, 0, v)
    ensures !HasActiveRun(s.db, 0)
  {
    hide Reachable, Gate.Passes, Shows, Grows;
    var s1 := FirstProject(scaffold, now);
    Gate.SpawnSyncPasses();
    s, v := SucceedsAgain(s1, 0, Gate.SPAWNING, now);
  }

  /** A completed project gets one more compile result.  Preview, run and stages still agree,
      and every read from then on reports a running workflow. */
  lemma ResultAfterSuccess(scaffold: seq<Snapshot>, now: Time) returns (s: System, d: Db, ref: string)
    requires ScaffoldOk(scaffold)
    ensures Reachable(s) && 0 in s.db.workflows && s.db.workflows[0].status == CompletedFlow && Agree(s.db, 0, 0)
    ensures RecordCompileResult(s.db, 0, 1, ref, now) == Ok(d) && Agree(d, 0, 0)
    ensures forall later :: GetProject(d, 0, later).Ok? && GetProject(d, 0, later).value.1.conflicts == [] &&
                            GetProject(d, 0, later).value.1.status == RunningFlow
  {
    hide Reachable, GetProject, VersionOk, RecordCompileResult, Provenance;
    var v;
    s, v := FirstSuccess(scaffold, now);
    ReachableIsSafe(s);
    ShownProvenance(s.db, 0, 0, v);
    assert RunOk(s.db.runs[0]);
    ref := FreshRef(s.db.runs[0].artifacts);
    d := NewResult(s.db, ReadOnly(scaffold), v, ref, now);
  }

  lemma NewResult(db: Db, ro: FileSet, v: Id, ref: string, now: Time) returns (d: Db)
    requires Inv(db, ro) && Shows(db, 0, 0, v) && Agree(db, 0, 0) && !ResultRecorded(db.runs[0], 1, ref)
    ensures RecordCompileResult(db, 0, 1, ref, now) == Ok(d) && Agree(d, 0, 0)
    ensures forall later :: GetProject(d, 0, later).Ok? && GetProject(d, 0, later).value.1.conflicts == [] &&
                            GetProject(d, 0, later).value.1.status == RunningFlow
  {
    hide GetProject, VersionOk, RecordArtifact;
    assert RunOk(db.runs[0]);
    KnownIsRecorded(db, 0, 1, ref, now);
    UnknownResultIs(db, 0, 1, ref, now);
    RecordArtifactKeeps(db, ro, 0, 0, Qa, ref, now);
    ResultKeepsProven(db.runs[0], 0, ref, now);
    d := RecordArtifact(db, 0, 0, Qa, ref, now).value;
    forall later
      ensures GetProject(d, 0, later).Ok? && GetProject(d, 0, later).value.1.conflicts == [] &&
              GetProject(d, 0, later).value.1.status == RunningFlow
    {
      CompletedStaysExactly(db, ro, 0, 0, 1, ref, now, later);
    }
  }

  /* ---- A restore ---- */

  /** A stable version of a run is there in every later state. */
  lemma ShownStays(db: Db, ro: FileSet, d: Db, p: Id, r: Id, v: Id)
    requires Inv(db, ro) && Inv(d, ro) && Grows(db, d) && Shows(db, p, r, v)
    ensures v < |d.versions| && d.versions[v].project == p && d.versions[v].status == StableVersion
    ensures Provenance(d.versions, d.iterations, Some(v)) == Some(r)
  {
    hide VersionOk, Provenance, AllProven, RunOk;
    assert ProjectOk(db, p);
    assert VersionKept(db.versions[v], d.versions[v]);
    ShownProvenance(db, p, r, v);
    ProvenanceKept(db, ro, d, v);
  }

  /** Two runs have succeeded and the preview of the first is restored: the workflow is
      completed with the second run, and the next read reports a mismatch. */
  lemma RestoreOfOlderRun(scaffold: seq<Snapshot>, now: Time, later: Time) returns (s: System, v: Id)
    requires ScaffoldOk(scaffold)
    ensures Reachable(s) && 0 in s.db.workflows && s.db.workflows[0].run == Some(1)
    ensures s.db.workflows[0].status == CompletedFlow
    ensures RestoreVersion(s.db, 0, v, now).Ok?
    ensures var d := RestoreVersion(s.db, 0, v, now).value.0;
            d.workflows == s.db.workflows && Provenance(d.versions, d.iterations, Some(v)) == Some(0) &&
            GetProject(d, 0, later).Ok? && PreviewMismatch in GetProject(d, 0, later).value.1.conflicts
  {
    hide Reachable, GetProject, Gate.Passes, Inv, Provenance;
    var s1, w;
    s1, v := FirstSuccess(scaffold, now);
    Gate.SpawnSyncPasses();
    s, w := SucceedsAgain(s1, 0, Gate.SPAWNING, now);
    ReachableIsSafe(s1);
    ReachableIsSafe(s);
    ShownStays(s1.db, ReadOnly(scaffold), s.db, 0, 0, v);
    RestoreMismatch(s.db, ReadOnly(scaffold), v, now, later);
  }

  lemma RestoreMismatch(db: Db, ro: FileSet, v: Id, now: Time, later: Time)
    requires Inv(db, ro) && |db.projects| > 0 && !HasActiveRun(db, 0)
    requires v < |db.versions| && db.versions[v].project == 0 && db.versions[v].status == StableVersion
    requires Provenance(db.versions, db.iterations, Some(v)) == Some(0)
    requires 0 in db.workflows && db.workflows[0].run == Some(1) && |db.runs| > 1 && db.runs[1].status == Succeeded
    ensures RestoreVersion(db, 0, v, now).Ok?
    ensures var d := RestoreVersion(db, 0, v, now).value.0;
            d.workflows == db.workflows && Provenance(d.versions, d.iterations, Some(v)) == Some(0) &&
            GetProject(d, 0, later).Ok? && PreviewMismatch in GetProject(d, 0, later).value.1.conflicts
  {
    hide Inv, GetProject, Provenance, Grows;
    RestoreThenRead(db, ro, 0, v, now, later);
    RestoreKeeps(db, ro, 0, v, now);
    ProvenanceKept(db, ro, RestoreVersion(db, 0, v, now).value.0, v);
  }

  /* ---- A draft that nobody settles ---- */

  /** The first loop has written a draft. */
  lemma FirstDraft(scaffold: seq<Snapshot>, content: string, now: Time) returns (s: System, v: Id)
    requires ScaffoldOk(scaffold)
    ensures Reachable(s) && s.scaffold == scaffold && |s.db.runs| == 1 && s.db.runs[0].status.Active()
    ensures Drafted(s.db, v, 0)
  {
    hide Reachable, Underway, SystemOk, NewRun;
    var s1 := FirstRun(scaffold, now);
    ReachableIsSafe(s1);
    assert s1 == Alone(s1.db, Booting(0), scaffold);
    var path, a := Boots(s1.db, scaffold, 0, 0, now);
    path, v := Writes(s1.db, scaffold, now, path, a, {}, content);
    s := DraftReached(s1.db, scaffold, now, path, a.(draft := Some(Draft(v, content))));
  }

  lemma DraftReached(start: Db, scaffold: seq<Snapshot>, now: Time, path: seq<Moment>, a: Agent) returns (s: System)
    requires Underway(start, scaffold, now, path, a, {}) && a.draft.Some? && Reachable(Alone(start, Booting(a.run), scaffold))
    ensures Reachable(s) && s.scaffold == scaffold && |s.db.runs| == |start.runs|
    ensures a.run < |s.db.runs| && s.db.runs[a.run].status.Active() && Drafted(s.db, a.draft.value.version, a.run)
  {
    hide Reachable, IsPath, SystemOk, AllowedAt, Entered;
    s := Alone(Last(path).db, a, scaffold);
    SmoothIsReachable(start, scaffold, a.run, Friendly(now), path);
    OwnPathKeepsRuns(path, scaffold, |path| - 1);
    AgentSteps.CourseIsSafe(start, scaffold, a.run, Friendly(now), path);
    AgentSteps.CourseTracks(start, scaffold, a.run, Friendly(now), path);
  }

  /** The process restarts with a draft unsettled, and the run is retried: the draft is there
      when the new loop starts.  In whatever world, when the loop has said its last word and no
      call of it was lost, exactly one move of it has ended the run, and right after that the
      draft was still a draft. */
  lemma DraftOutlivesLoop(scaffold: seq<Snapshot>, content: string, now: Time) returns (start: Db, v: Id)
    requires ScaffoldOk(scaffold)
    ensures Reachable(Alone(start, Booting(0), scaffold)) && Drafted(start, v, 0)
    ensures forall world, path ::
              Course(start, scaffold, 0, world, path) && BookOf(path).spoken && !HasLost(path) ==> StillDraft(path, v, 0)
  {
    hide Reachable, Course, AppPasses, BookOf;
    var s1;
    s1, v := FirstDraft(scaffold, content, now);
    start := RestartsAndRetries(s1, now);
    forall world, path | Course(start, scaffold, 0, world, path) && BookOf(path).spoken && !HasLost(path)
      ensures StillDraft(path, v, 0)
    {
      var k := OneTerminalEvent(start, scaffold, 0, world, path);
    }
  }

  /** The run was ended once, and version `v` was a draft of run `r` right after. */
  ghost predicate StillDraft(path: seq<Moment>, v: Id, r: Id) {
    exists k: nat :: RunEndsAt(path, k) && Drafted(path[k].db, v, r) && forall j: nat :: RunEndsAt(path, j) ==> j == k
  }

  lemma Restarts(s: System, d: Db, now: Time) returns (s': System)
    requires Reachable(s) && MarkInterrupted(s.db, now) == Ok(d)
    ensures Reachable(s') && s' == System(d, map[], s.scaffold)
  {
    hide Serve, Acts, MarkInterrupted, Reachable;
    s' := System(d, map[], s.scaffold);
    Onward(s, Restart(true, now), s');
  }

  lemma RestartsAndRetries(s: System, now: Time) returns (d: Db)
    requires Reachable(s) && |s.db.runs| == 1 && s.db.runs[0].status.Active()
    ensures Reachable(Alone(d, Booting(0), s.scaffold)) && d.versions == s.db.versions && d.iterations == s.db.iterations
  {
    hide Reachable, Inv, MarkInterrupted, RetriedRun, Grows;
    ReachableIsSafe(s);
    MarkInterruptedKeeps(s.db, ReadOnly(s.scaffold), now);
    var s1 := Restarts(s, MarkInterrupted(s.db, now).value, now);
    NothingActive(s1.db);
    d := Retries(s1, 0, 0, now);
    assert s1.agents[0 := Booting(0)] == map[0 := Booting(0)];
  }

  /* ---- A stream that closes before the last word ---- */

  /** Nothing terminal is in the log of a run whose loop has just got through. */
  lemma ThroughIsQuiet(start: Db, scaffold: seq<Snapshot>, now: Time, path: seq<Moment>, r: Id, v: Id)
    requires Through(start, scaffold, now, path, r, v) && r < |start.runs| && start.runs[r].log == []
    ensures r < |Last(path).db.runs| && EventStreams.QuietFrom(Last(path).db.runs[r].log, 0)
  {
    hide IsPath, SystemOk, AllowedAt;
    PathIsSafe(path, scaffold, |path| - 1);
    SaidIsStored(path, scaffold);
    NothingSaid(start, scaffold, now, path, r, v);
    StoredIsQuiet(path, Last(path).db.runs[r].log, Spots(path), Said(path));
  }

  lemma {:induction false} NothingSaid(start: Db, scaffold: seq<Snapshot>, now: Time, path: seq<Moment>, r: Id, v: Id)
    requires Through(start, scaffold, now, path, r, v)
    ensures NothingTerminal(Said(path))
  {
    hide Course, IsOver, OnCourse, BookOf, SystemOk;
    WholeCourseStands(start, scaffold, r, Friendly(now), path);
    NotYetSpoken(start, scaffold, now, path, r, v);
  }

  lemma {:induction false} NotYetSpoken(start: Db, scaffold: seq<Snapshot>, now: Time, path: seq<Moment>, r: Id, v: Id)
    requires Through(start, scaffold, now, path, r, v)
    ensures !BookOf(path).spoken
  {
    hide Course, Entered;
    var k := |path| - 1;
    LiveHasNotSpoken(start, scaffold, r, Friendly(now), path, k);
    BookUnfolds(path, path[..k], path[k - 1], path[k], k);
    AcceptEntered(BookOf(path[..k]), path[k - 1], path[k].agent, false, k);
  }

  lemma LiveHasNotSpoken(start: Db, scaffold: seq<Snapshot>, r: Id, world: World, path: seq<Moment>, k: nat)
    requires Course(start, scaffold, r, world, path) && 0 < k <= |path| && path[k - 1].agent.Live()
    ensures !BookOf(path[..k]).spoken
  {
    hide Course, IsOver, BookOf, SystemOk, OnTrack;
    CourseStands(start, scaffold, r, world, path, k);
    assert Last(path[..k]) == path[k - 1];
  }

  lemma StoredIsQuiet(path: seq<Moment>, log: seq<Event>, spots: seq<nat>, said: seq<EventKind>)
    requires IsSmooth(path) && Stored(path, log, 0, spots, said) && NothingTerminal(said)
    ensures EventStreams.QuietFrom(log, 0)
  {
    forall q | 0 <= q < |log| ensures !IsTerminal(log[q].kind) {
      assert q in spots;
      var k :| 0 <= k < |spots| && spots[k] == q;
      assert said[k] in said;
    }
  }

  /** Between its promotion and its last word the loop's run has succeeded without a terminal
      event in its log, and a stream that polls then closes without telling how the run ended;
      the event comes after that. */
  lemma StreamClosesTooEarly(scaffold: seq<Snapshot>, now: Time) returns (s: System, s': System)
    requires ScaffoldOk(scaffold)
    ensures Reachable(s) && |s.db.runs| == 1 && s.db.runs[0].status == Succeeded
    ensures var c := EventStreams.Served(0, [EventStreams.Turn(s.db.runs[0].log, s.db.runs[0].status)]);
            !c.open && !EventStreams.Tells(c.wire)
    ensures Next(s, Act(0, LastWords(RunCompleted), false, now), s')
    ensures |s'.db.runs| == 1 && !EventStreams.QuietFrom(s'.db.runs[0].log, |s.db.runs[0].log|)
  {
    hide Next;
    var s1 := FirstProject(scaffold, now);
    var start := LoopStarts(s1, 0, now);
    var d := GetsThroughQuietly(start, scaffold, now);
    s := Alone(d, Ending(0), scaffold);
    s' := LastWordFollows(s, now);
  }

  /** The first run gets through, and nothing terminal is in its log yet. */
  lemma GetsThroughQuietly(start: Db, scaffold: seq<Snapshot>, now: Time) returns (d: Db)
    requires Reachable(Alone(start, Booting(0), scaffold)) && |start.runs| == 1 && start.runs[0].log == []
    requires start.runs[0].project < |start.projects| && |start.iterations| > 0 && start.iterations[0].run == Some(0)
    requires start.iterations[0].base == start.projects[start.runs[0].project].stable
    ensures Reachable(Alone(d, Ending(0), scaffold)) && |d.runs| == 1 && d.runs[0].status == Succeeded
    ensures EventStreams.QuietFrom(d.runs[0].log, 0)
  {
    hide Reachable, Course, Gate.Passes, SystemOk, Grows;
    ReachableIsSafe(Alone(start, Booting(0), scaffold));
    Gate.SpawnSyncPasses();
    var path, v := Completes(start, scaffold, 0, 0, Gate.SPAWNING, now);
    d := Last(path).db;
    ThroughShows(start, scaffold, now, path, 0, v);
    ThroughIsQuiet(start, scaffold, now, path, 0, v);
    SmoothIsReachable(start, scaffold, 0, Friendly(now), path);
  }

  lemma LastWordFollows(s: System, now: Time) returns (s': System)
    requires Reachable(s) && s.agents == map[0 := Ending(0)] && |s.db.runs| == 1 && s.db.runs[0].status == Succeeded
    requires EventStreams.QuietFrom(s.db.runs[0].log, 0)
    ensures var c := EventStreams.Served(0, [EventStreams.Turn(s.db.runs[0].log, s.db.runs[0].status)]);
            !c.open && !EventStreams.Tells(c.wire)
    ensures Next(s, Act(0, LastWords(RunCompleted), false, now), s')
    ensures |s'.db.runs| == 1 && !EventStreams.QuietFrom(s'.db.runs[0].log, |s.db.runs[0].log|)
  {
    hide Next, VersionOk, AppendEvent, EventStreams.Served;
    ReachableIsSafe(s);
    assert RunOk(s.db.runs[0]);
    StreamClosesOnSuccess(s.db.runs[0].log);
    EventAppends(s.db, ReadOnly(s.scaffold), 0, RunCompleted, now);
    EventKeepsCount(s.db, 0, RunCompleted, now);
    s' := Speaks(s, 0, 0, RunCompleted, now);
    NoLongerQuiet(s.db.runs[0].log, s'.db.runs[0].log);
  }

  lemma NoLongerQuiet(log: seq<Event>, log': seq<Event>)
    requires Appends(log, log', [RunCompleted])
    ensures !EventStreams.QuietFrom(log', |log|)
  {
    assert [RunCompleted][0] == log'[|log| + 0].kind;
  }

  lemma StreamClosesOnSuccess(log: seq<Event>)
    requires EventStreams.Numbered(log) && EventStreams.QuietFrom(log, 0)
    ensures var c := EventStreams.Served(0, [EventStreams.Turn(log, Succeeded)]); !c.open && !EventStreams.Tells(c.wire)
  {
    var turns := [EventStreams.Turn(log, Succeeded)];
    assert turns[..0] == [];
    EventStreams.SilentCloseExactly(0, turns);
  }
}
