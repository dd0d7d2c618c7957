/** Runs of the system that reach the states in which the code and its own words differ, and
    a loop that goes all the way to a success. */
module Scenarios {
  import opened Prelude
  import opened Tables
  import opened Workflows
  import opened Operations
  import opened Invariant
  import opened RunSteps
  import opened VersionSteps
  import opened RestartSteps
  import opened Calls
  import opened Systems
  import opened SystemSafety
  import opened Interference
  import opened FlowLaws
  import opened LateWrites

  ghost predicate Reachable(s: System) { exists states :: RunEndsIn(states, s) }

  ghost predicate RunEndsIn(states: seq<System>, s: System) { IsRun(states) && states[|states| - 1] == s }

  lemma ReachableIsSafe(s: System)
    requires Reachable(s)
    ensures SystemOk(s)
  {
    hide FollowsAt, SystemOk, Initial;
    var states :| RunEndsIn(states, s);
    RunsAreSafe(states, |states| - 1);
  }

  lemma StartIsReachable(scaffold: seq<Snapshot>)
    requires ScaffoldOk(scaffold)
    ensures Reachable(System(EMPTY, map[], scaffold))
  {
    hide FollowsAt;
    assert RunEndsIn([System(EMPTY, map[], scaffold)], System(EMPTY, map[], scaffold));
  }

  lemma Onward(s: System, step: Step, s': System)
    requires Reachable(s) && Next(s, step, s')
    ensures Reachable(s')
  {
    hide Next, Initial;
    var states :| RunEndsIn(states, s);
    var more := states + [s'];
    forall i | 0 <= i < |more| - 1 ensures FollowsAt(more, i) {
      if i < |states| - 1 {
        assert FollowsAt(states, i);
      }
    }
    assert RunEndsIn(more, s');
  }

  /* ---- Single steps ---- */

  /** A client call that is served, with no agent launched. */
  lemma Serves(s: System, c: ClientCall, now: Time, d: Db)
    requires Reachable(s) && Serve(s.db, c, now) == Ok(d)
    ensures Reachable(s.(db := d))
  {
    hide Serve, Acts, MarkInterrupted, Reachable;
    Onward(s, Handle(c, None, now), s.(db := d));
  }

  /** A client call that launches agent `id`. */
  lemma Launches(s: System, c: ClientCall, id: nat, now: Time, d: Db, r: Id)
    requires Reachable(s) && Serve(s.db, c, now) == Ok(d) && Launched(s.db, c) == Some(r) && id !in s.agents
    ensures Reachable(System(d, s.agents[id := Booting(r)], s.scaffold))
  {
    hide Serve, Acts, MarkInterrupted, Reachable;
    Onward(s, Handle(c, Some(id), now), System(d, s.agents[id := Booting(r)], s.scaffold));
  }

  /** An agent's action that makes its store call. */
  lemma Does(s: System, id: nat, action: Action, now: Time, d: Db)
    requires Reachable(s) && id in s.agents && Enabled(s, s.agents[id], action) && !action.Leave?
    requires Effect(s, s.agents[id], action, false, now) == Ok(d)
    ensures Reachable(System(d, s.agents[id := After(s, s.agents[id], action, true)], s.scaffold))
  {
    hide Serve, Effect, Enabled, MarkInterrupted, Reachable;
    Onward(s, Act(id, action, false, now), System(d, s.agents[id := After(s, s.agents[id], action, true)], s.scaffold));
  }

  lemma Leaves(s: System, id: nat, now: Time)
    requires Reachable(s) && id in s.agents
    ensures Reachable(s.(agents := s.agents - {id}))
  {
    hide Serve, Perform, MarkInterrupted;
    Onward(s, Act(id, Leave, true, now), s.(agents := s.agents - {id}));
  }

  /* ---- A project with a run ---- */

  /** A first project in an empty store. */
  lemma FirstProject(scaffold: seq<Snapshot>, now: Time) returns (s: System)
    requires ScaffoldOk(scaffold)
    ensures Reachable(s) && s.agents == map[] && s.scaffold == scaffold
    ensures |s.db.projects| == 1 && s.db.runs == [] && s.db.iterations == [] && s.db.versions == []
    ensures s.db.projects[0].stable == None
  {
    hide Reachable, WriteFile;
    StartIsReachable(scaffold);
    var s0 := System(EMPTY, map[], scaffold);
    var d := CreateProject(EMPTY, 1, now).value.0;
    Serves(s0, DoCreateProject(1), now, d);
    s := s0.(db := d);
  }

  /** The tables after a new run of project `p`. */
  ghost predicate RunAdded(db: Db, d: Db, p: Id, now: Time) {
    p < |db.projects| && d.projects == db.projects && d.versions == db.versions &&
    d.runs == db.runs + [NewRun(p, Queued, db.projects[p].stable, now)] &&
    d.iterations == db.iterations + [Iteration(p, Some(|db.runs|), AgentIteration, db.projects[p].stable, None)]
  }

  lemma RunIsAdded(db: Db, p: Id, now: Time) returns (d: Db)
    requires p < |db.projects| && !HasActiveRun(db, p)
    ensures TablesOf(CreateRun(db, p, 1, None, true, now)) == Ok(d) && RunAdded(db, d, p, now)
  {
    d := CreateRun(db, p, 1, None, true, now).value.0;
  }

  /** A project with no active run can always have another one. */
  lemma NextRun(s: System, p: Id, id: nat, now: Time) returns (d: Db)
    requires Reachable(s) && p < |s.db.projects| && !HasActiveRun(s.db, p) && id !in s.agents
    ensures Reachable(System(d, s.agents[id := Booting(|s.db.runs|)], s.scaffold)) && RunAdded(s.db, d, p, now)
    ensures Grows(s.db, d)
  {
    hide Reachable;
    var c := DoCreateRun(p, 1, None, true);
    d := RunIsAdded(s.db, p, now);
    ReachableIsSafe(s);
    CreateRunKeeps(s.db, ReadOnly(s.scaffold), p, 1, None, true, now);
    Launches(s, c, id, now, d, |s.db.runs|);
  }

  /** What failing a run of one attempt leaves. */
  ghost predicate RunFailedIn(db: Db, d: Db, r: Id) {
    OnlyRun(db, d, r) && d.projects == db.projects && d.iterations == db.iterations &&
    d.runs[r].status == Failed && d.runs[r].project == db.runs[r].project &&
    |d.runs[r].attempts| == |db.runs[r].attempts|
  }

  lemma FailRunFails(db: Db, ro: FileSet, r: Id, now: Time) returns (d: Db)
    requires Inv(db, ro) && r < |db.runs|
    ensures Perform(db, DoFailRun(r), now) == Ok(d) && RunFailedIn(db, d, r)
  {
    hide Inv, AppendEvent, RecordArtifact, Promote, FailDraft;
    FailRunKeeps(db, ro, r, now);
    d := FailRun(db, r, now).value;
  }

  /** An agent gives up its run. */
  lemma GivesUp(s: System, id: nat, r: Id, now: Time) returns (d: Db)
    requires Reachable(s) && id in s.agents && s.agents[id] == Booting(r)
    ensures Reachable(System(d, s.agents[id := Ending(r)], s.scaffold)) && RunFailedIn(s.db, d, r)
  {
    hide Reachable, Perform, Inv;
    ReachableIsSafe(s);
    assert AgentOk(s.db, s.agents[id]);
    d := FailRunFails(s.db, ReadOnly(s.scaffold), r, now);
    Does(s, id, Abandon, now, d);
  }

  /** A run that has ended is retried by a new agent. */
  lemma Retries(s: System, r: Id, id: nat, now: Time) returns (d: Db)
    requires Reachable(s) && r < |s.db.runs| && !HasActiveRun(s.db, s.db.runs[r].project) && id !in s.agents
    requires s.db.runs[r].status == Failed || s.db.runs[r].status == Interrupted
    ensures Reachable(System(d, s.agents[id := Booting(r)], s.scaffold))
    ensures RunWrite(s.db, d, r, RunningFlow, now) && d.runs[r] == RetriedRun(s.db.runs[r], now)
  {
    hide Reachable, Inv, WriteFile;
    ReachableIsSafe(s);
    RetryRunKeeps(s.db, ReadOnly(s.scaffold), r, now);
    d := RetryRun(s.db, r, now).value.0;
    Launches(s, DoRetry(r), id, now, d, r);
  }

  /* ---- Where code and words differ ---- */

  /** One project with its first run, and a loop about to start. */
  lemma FirstRun(scaffold: seq<Snapshot>, now: Time) returns (s: System)
    requires ScaffoldOk(scaffold)
    ensures Reachable(s) && s.scaffold == scaffold && s.agents == map[0 := Booting(0)]
    ensures |s.db.projects| == 1 && s.db.projects[0].stable == None && s.db.versions == []
    ensures s.db.runs == [NewRun(0, Queued, None, now)]
    ensures s.db.iterations == [Iteration(0, Some(0), AgentIteration, None, None)]
  {
    hide Reachable, NewRun, Grows;
    var s1 := FirstProject(scaffold, now);
    var d := NextRun(s1, 0, 0, now);
    s := System(d, map[0 := Booting(0)], scaffold);
    assert s1.agents[0 := Booting(0)] == map[0 := Booting(0)];
  }

  /** One project whose first run has failed, its loop not yet done talking. */
  lemma FailedRun(scaffold: seq<Snapshot>, now: Time) returns (s: System)
    requires ScaffoldOk(scaffold)
    ensures Reachable(s) && s.scaffold == scaffold && s.agents == map[0 := Ending(0)]
    ensures |s.db.projects| == 1 && |s.db.runs| == 1 && s.db.runs[0].project == 0
    ensures s.db.runs[0].status == Failed && |s.db.runs[0].attempts| == 1 && !HasActiveRun(s.db, 0)
  {
    hide Reachable, InitStages;
    var s1 := FirstRun(scaffold, now);
    var d := GivesUp(s1, 0, 0, now);
    assert s1.agents[0 := Ending(0)] == map[0 := Ending(0)];
    s := System(d, map[0 := Ending(0)], scaffold);
    NothingActive(d);
  }

  lemma NothingActive(db: Db)
    requires forall r :: 0 <= r < |db.runs| ==> !db.runs[r].status.Active()
    ensures forall p :: !HasActiveRun(db, p)
  {
  }

  /** The run is retried while the loop of its first attempt still has a word to say. */
  lemma RetriedTooSoon(scaffold: seq<Snapshot>, now: Time) returns (s: System)
    requires ScaffoldOk(scaffold)
    ensures Reachable(s) && s.agents == map[0 := Ending(0), 1 := Booting(0)]
    ensures |s.db.runs| == 1 && s.db.runs[0].status == Running && |s.db.runs[0].attempts| == 2
  {
    hide Reachable, InitStages;
    var s1 := FailedRun(scaffold, now);
    var d := Retries(s1, 0, 1, now);
    s := System(d, s1.agents[1 := Booting(0)], scaffold);
  }

  /** A retry gets in before the last word of the loop whose run failed: the word lands on
      the second attempt, and the workflow is failed while the run goes on. */
  lemma RetryBeforeLastWord(scaffold: seq<Snapshot>, stage: Stage, code: string, now: Time) returns (s: System, s': System)
    requires ScaffoldOk(scaffold)
    ensures Reachable(s) && s.agents == map[0 := Ending(0), 1 := Booting(0)] && |s.db.runs| == 1
    ensures s.db.runs[0].status == Running && |s.db.runs[0].attempts| == 2
    ensures Next(s, Act(0, LastWords(RunFailed(Some(stage), code)), false, now), s')
    ensures |s'.db.runs| == 1 && OnlyFails(s.db.runs[0], s'.db.runs[0], (2, stage), now) && FlowDisagrees(s'.db, 0)
  {
    hide *;
    s := RetriedTooSoon(scaffold, now);
    LastWordAfterRetry(s, stage, code, now);
    s' := Speaks(s, 0, 0, RunFailed(Some(stage), code), now);
  }

  /** An agent whose run has ended persists an event. */
  lemma Speaks(s: System, id: nat, r: Id, kind: EventKind, now: Time) returns (s': System)
    requires Reachable(s) && id in s.agents && s.agents[id] == Ending(r) && AppendEvent(s.db, r, kind, now).Ok?
    ensures Next(s, Act(id, LastWords(kind), false, now), s') && s'.db == AppendEvent(s.db, r, kind, now).value
  {
    hide Serve;
    s' := System(AppendEvent(s.db, r, kind, now).value, s.agents, s.scaffold);
    assert s.agents[id := Ending(r)] == s.agents;
  }

  lemma LastWordAfterRetry(s: System, stage: Stage, code: string, now: Time)
    requires Reachable(s) && |s.db.runs| == 1 && s.db.runs[0].status == Running
    ensures var res := AppendEvent(s.db, 0, RunFailed(Some(stage), code), now);
            res.Ok? && |res.value.runs| == 1 && FlowDisagrees(res.value, 0) &&
            OnlyFails(s.db.runs[0], res.value.runs[0], (|s.db.runs[0].attempts|, stage), now)
  {
    hide Reachable, AppendEvent;
    ReachableIsSafe(s);
    var ro := ReadOnly(s.scaffold);
    assert s.db.runs[0].project < |s.db.projects|;
    assert ProjectOk(s.db, s.db.runs[0].project);
    LastWordLands(s.db, ro, 0, Some(stage), code, now);
    AppendEventKeeps(s.db, ro, 0, RunFailed(Some(stage), code), now);
  }

  /** A failed run beside an active one: its retry is not refused but aborts. */
  lemma RetryBesideActiveRun(scaffold: seq<Snapshot>, now: Time) returns (s: System)
    requires ScaffoldOk(scaffold)
    ensures Reachable(s) && |s.db.runs| == 2 && s.db.runs[0].project == s.db.runs[1].project
    ensures s.db.runs[0].status == Failed && s.db.runs[1].status.Active()
    ensures RetryRun(s.db, 0, now) == Err(Internal)
  {
    hide Reachable, RetryRun, Grows, InitStages;
    var s1 := FailedRun(scaffold, now);
    var d := NextRun(s1, 0, 1, now);
    s := System(d, s1.agents[1 := Booting(1)], scaffold);
    RetryAborts(s, 0, 1, now);
  }

  lemma RetryAborts(s: System, r: Id, k: Id, now: Time)
    requires Reachable(s) && r < |s.db.runs| && k < |s.db.runs| && s.db.runs[k].project == s.db.runs[r].project
    requires s.db.runs[r].status == Failed && s.db.runs[k].status.Active()
    ensures RetryRun(s.db, r, now) == Err(Internal)
  {
    hide Reachable, Inv, RetryRun, AgentOk;
    ReachableIsSafe(s);
    assert ActiveIn(s.db, k, s.db.runs[r].project);
    RetryOutcome(s.db, ReadOnly(s.scaffold), r, now);
  }
}
