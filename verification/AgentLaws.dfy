/** What holds along every path of the agent loop, whatever the model answers, whatever
    writes are lost and whatever others do in between. */
module AgentLaws {
  import opened Prelude
  import opened Tables
  import opened Operations
  import opened Invariant
  import opened Systems
  import opened SystemSafety
  import opened Interference
  import opened AgentModel
  import opened AgentPaths
  import opened AgentBooks
  import opened AgentMoves
  import opened AgentLog
  import opened AgentWords
  import opened FlowLaws
  import opened Lineage
  import opened Reading
  import opened ReadingLaws
  import opened Workflows
  import Gate

  /** Every moment of a path satisfies the system's invariant and has grown from the start. */
  lemma {:induction false} PathIsSafe(path: seq<Moment>, scaffold: seq<Snapshot>, k: nat)
    requires IsPath(path, scaffold) && k < |path| && SystemOk(Alone(path[0].db, path[0].agent, scaffold))
    ensures SystemOk(Alone(path[k].db, path[k].agent, scaffold)) && Grows(path[0].db, path[k].db)
    ensures path[k].agent.run == path[0].agent.run
  {
    hide Leads, SystemOk, Grows;
    if k == 0 {
      GrowsReflexive(path[0].db);
    } else {
      PathIsSafe(path, scaffold, k - 1);
      assert LeadsAt(path, k, scaffold);
      MoveIsSafe(path[k - 1], path[k], scaffold);
      GrowsTransitive(path[0].db, path[k - 1].db, path[k].db);
    }
  }

  lemma OwnMoveStable(x: Moment, y: Moment, scaffold: seq<Snapshot>)
    requires SystemOk(Alone(x.db, x.agent, scaffold)) && Leads(x, y, scaffold) && y.move.Own?
    ensures KeepsStable(x.db, y.db) ||
            (y.move.action.Accept? && AcceptMovesTo(x.db, y.db, x.agent) && y.agent == Ending(x.agent.run))
  {
    hide Gate.Passes, Inv, Tolerable, AppendEvent;
    var s := Alone(x.db, x.agent, scaffold);
    var action, lost, now := y.move.action, y.move.lost, y.move.now;
    assert AgentOk(x.db, s.agents[0]);
    assert Alone(y.db, y.agent, scaffold).agents[0] == y.agent;
    if Effect(s, x.agent, action, lost, now).Ok? {
      AgentMovesStable(s, x.agent, action, now);
    }
  }

  /** The stable version of the run's project stayed, or moved by accepting the last draft. */
  ghost predicate MovedByAcceptance(x: Moment, y: Moment) {
    x.agent.run < |x.db.runs| &&
    var p := x.db.runs[x.agent.run].project;
    p < |x.db.projects| <= |y.db.projects| &&
    (y.db.projects[p].stable == x.db.projects[p].stable ||
     (y.move.Own? && y.move.action.Accept? && x.agent.Working? && x.agent.draft.Some? &&
      Gate.Passes(x.agent.draft.value.content) &&
      y.db.projects[p].stable == Some(x.agent.draft.value.version) && y.agent == Ending(x.agent.run)))
  }

  lemma OwnMoveAccepts(x: Moment, y: Moment, scaffold: seq<Snapshot>)
    requires SystemOk(Alone(x.db, x.agent, scaffold)) && Leads(x, y, scaffold) && y.move.Own?
    requires x.agent.run < |x.db.runs| && x.db.runs[x.agent.run].project < |x.db.projects|
    ensures MovedByAcceptance(x, y)
  {
    hide Leads, Gate.Passes, SystemOk;
    OwnMoveStable(x, y, scaffold);
  }

  lemma MoveAccepts(x: Moment, y: Moment, scaffold: seq<Snapshot>)
    requires SystemOk(Alone(x.db, x.agent, scaffold)) && Leads(x, y, scaffold) && x.agent.Live()
    ensures MovedByAcceptance(x, y)
  {
    hide Acts, Gate.Passes;
    assert AgentOk(x.db, Alone(x.db, x.agent, scaffold).agents[0]);
    if y.move.Own? {
      OwnMoveAccepts(x, y, scaffold);
    }
  }

  /** While the loop's run is active, the stable version of its project moves in one way
      only: the loop accepts its last draft, and that draft passed the gate. */
  lemma StableMovesByAcceptance(path: seq<Moment>, scaffold: seq<Snapshot>, k: nat)
    requires IsPath(path, scaffold) && 0 < k < |path| && SystemOk(Alone(path[0].db, path[0].agent, scaffold))
    requires path[k - 1].agent.Live() && path[k - 1].agent.run < |path[k - 1].db.runs|
    ensures MovedByAcceptance(path[k - 1], path[k])
  {
    hide Leads, SystemOk, Grows, MovedByAcceptance;
    PathIsSafe(path, scaffold, k - 1);
    assert LeadsAt(path, k, scaffold);
    MoveAccepts(path[k - 1], path[k], scaffold);
  }

  /* ---- The end of the run ---- */

  /** A run that the loop has ended stays ended for it. */
  lemma EndedForGood(start: Db, scaffold: seq<Snapshot>, r: Id, world: World, path: seq<Moment>, j: nat, k: nat)
    requires Course(start, scaffold, r, world, path) && 0 < j <= k < |path| && path[j].agent.Ending?
    ensures path[k].agent.Ending?
  {
    hide *;
    for m := j to k
      invariant path[m].agent.Ending?
    {
      EndedStays(start, scaffold, r, world, path, m);
    }
  }

  lemma EndedStays(start: Db, scaffold: seq<Snapshot>, r: Id, world: World, path: seq<Moment>, m: nat)
    requires Course(start, scaffold, r, world, path) && m + 1 < |path| && path[m].agent.Ending?
    ensures path[m + 1].agent.Ending?
  {
    hide Acts, BookOf, Tolerable, SystemOk, Grows;
    PathIsSafe(path, scaffold, m);
    assert LeadsAt(path, m + 1, scaffold) && AllowedAt(path, m + 1, world);
    if path[m + 1].move.Own? {
      EndedSpeaks(path[m], path[m + 1], scaffold, BookOf(path[..m + 1]));
    }
  }

  /** At most one move ends the run. */
  lemma OneEnd(start: Db, scaffold: seq<Snapshot>, r: Id, world: World, path: seq<Moment>, j: nat, k: nat)
    requires Course(start, scaffold, r, world, path) && RunEndsAt(path, j) && RunEndsAt(path, k)
    ensures j == k
  {
    hide Course;
    if j < k {
      EndedForGood(start, scaffold, r, world, path, j, k - 1);
    } else if k < j {
      EndedForGood(start, scaffold, r, world, path, k, j - 1);
    }
  }

  /** The store `c` right after the run was ended: the run has succeeded or failed; a version
      of it is still a draft if and only if it was one before the loop began, as an attempt
      that was cut short can leave it; and the stable version is the last draft, which passed
      the gate, or what it was. */
  ghost predicate Settles(start: Db, c: Db, r: Id, draft: Option<Id>, success: bool) {
    r < |c.runs| && r < |start.runs| && start.runs[r].project < |start.projects| <= |c.projects| &&
    c.runs[r].status == (if success then Succeeded else Failed) &&
    (forall v: Id :: Drafted(c, v, r) <==> Drafted(start, v, r)) &&
    var stable := c.projects[start.runs[r].project].stable;
    if success then
      stable == draft && draft.Some? && LastMade(c, draft.value, r) && AppPasses(c.versions[draft.value].files)
    else stable == start.projects[start.runs[r].project].stable
  }

  /** The loop's execution, summed up.  Once it has tried its last word, and unless a call of
      it was lost, exactly one move of its path ended the run, and the store was settled right
      after it; exactly one terminal event was persisted, it came last, and it told whether
      the run had succeeded. */
  lemma OneTerminalEvent(start: Db, scaffold: seq<Snapshot>, r: Id, world: World, path: seq<Moment>) returns (k: nat)
    requires Course(start, scaffold, r, world, path) && BookOf(path).spoken && !HasLost(path)
    ensures RunEndsAt(path, k) && forall j: nat :: RunEndsAt(path, j) ==> j == k
    ensures BookOf(path).accepted == path[k].move.action.Accept?
    ensures Settles(start, path[k].db, r, DraftOf(path[k - 1].agent), path[k].move.action.Accept?)
    ensures var said := Said(path);
            said != [] && (forall j :: 0 <= j < |said| ==> (IsTerminal(said[j]) <==> j == |said| - 1)) &&
            (said[|said| - 1].RunCompleted? <==> path[k].move.action.Accept?)
  {
    hide Course, Stands, Closes, BookOf, Settles;
    WholeCourseStands(start, scaffold, r, world, path);
    LostIsFact(path);
    k := EndIsThere(start, scaffold, r, path);
    EndIsSettled(start, scaffold, r, world, path, k);
    forall j: nat | RunEndsAt(path, j) ensures j == k {
      OneEnd(start, scaffold, r, world, path, j, k);
    }
    OnlyLastIsTerminal(Said(path));
  }

  lemma EndIsThere(start: Db, scaffold: seq<Snapshot>, r: Id, path: seq<Moment>) returns (k: nat)
    requires Stands(start, scaffold, r, path) && BookOf(path).spoken && !BookOf(path).lost
    ensures RunEndsAt(path, k) && BookOf(path).accepted == path[k].move.action.Accept?
    ensures Closes(start, scaffold, path[k - 1], path[k], {}, !BookOf(path).meddled)
    ensures EndsAs(Said(path), BookOf(path).accepted)
  {
    hide BookOf, Closes, SystemOk, Grows;
    k := BookOf(path).closed.value;
  }

  lemma {:induction false} EndIsSettled(start: Db, scaffold: seq<Snapshot>, r: Id, world: World, path: seq<Moment>, k: nat)
    requires Course(start, scaffold, r, world, path) && RunEndsAt(path, k)
    requires Closes(start, scaffold, path[k - 1], path[k], {}, !BookOf(path).meddled)
    ensures Settles(start, path[k].db, r, DraftOf(path[k - 1].agent), path[k].move.action.Accept?)
  {
    hide Gate.Passes, Inv;
    PathIsSafe(path, scaffold, k - 1);
  }

  lemma OnlyLastIsTerminal(said: seq<EventKind>)
    requires EndsOnce(said)
    ensures forall j :: 0 <= j < |said| ==> (IsTerminal(said[j]) <==> j == |said| - 1)
  {
    forall j | 0 <= j < |said| - 1 ensures !IsTerminal(said[j]) {
      assert said[j] in said[..|said| - 1] by {
        assert said[..|said| - 1][j] == said[j];
      }
    }
  }

  /** The same in the stored log: of the events the loop appended to its run's log exactly one
      is terminal, the last; every other event there since the loop's start was appended by
      others. */
  lemma {:induction false} OneTerminalEventInLog(start: Db, scaffold: seq<Snapshot>, r: Id, world: World, path: seq<Moment>)
    requires Course(start, scaffold, r, world, path) && BookOf(path).spoken && !HasLost(path)
    ensures var db, spots := Last(path).db, Spots(path);
            r < |start.runs| && r < |db.runs| && start.runs[r].log <= db.runs[r].log &&
            Stored(path, db.runs[r].log, |start.runs[r].log|, spots, Said(path)) && spots != [] &&
            forall j :: 0 <= j < |spots| ==>
              (IsTerminal(db.runs[r].log[spots[j]].kind) <==> j == |spots| - 1) &&
              (j == |spots| - 1 ==> db.runs[r].log[spots[j]].kind.RunCompleted? == BookOf(path).accepted)
  {
    hide *;
    LogIsThere(start, scaffold, r, world, path);
    var k := OneTerminalEvent(start, scaffold, r, world, path);
    StoredTerminal(path, Last(path).db.runs[r].log, |start.runs[r].log|, Spots(path), Said(path), BookOf(path).accepted);
  }

  /** Without a lost call everything the loop tried to say is in its run's log, in that order. */
  lemma {:induction false} WordsAreStored(start: Db, scaffold: seq<Snapshot>, r: Id, world: World, path: seq<Moment>)
    requires Course(start, scaffold, r, world, path) && !HasLost(path)
    ensures var db := Last(path).db;
            r < |start.runs| && r < |db.runs| && start.runs[r].log <= db.runs[r].log &&
            Stored(path, db.runs[r].log, |start.runs[r].log|, Spots(path), WordsOf(path))
  {
    hide *;
    LogIsThere(start, scaffold, r, world, path);
    AllIsSaid(path);
  }

  lemma {:induction false} LogIsThere(start: Db, scaffold: seq<Snapshot>, r: Id, world: World, path: seq<Moment>)
    requires Course(start, scaffold, r, world, path)
    ensures r < |start.runs| && r < |Last(path).db.runs| && start.runs[r].log <= Last(path).db.runs[r].log
    ensures Stored(path, Last(path).db.runs[r].log, |start.runs[r].log|, Spots(path), Said(path))
  {
    hide IsPath, Inv, AllowedAt;
    SaidIsStored(path, scaffold);
    assert AgentOk(start, Alone(start, Booting(r), scaffold).agents[0]);
    assert AgentOk(Last(path).db, Alone(Last(path).db, Last(path).agent, scaffold).agents[0]);
  }

  lemma StoredTerminal(path: seq<Moment>, log: seq<Event>, from: nat, spots: seq<nat>, said: seq<EventKind>, success: bool)
    requires Stored(path, log, from, spots, said) && said != []
    requires forall j :: 0 <= j < |said| ==> (IsTerminal(said[j]) <==> j == |said| - 1)
    requires said[|said| - 1].RunCompleted? <==> success
    ensures spots != [] &&
            forall j :: 0 <= j < |spots| ==>
              (IsTerminal(log[spots[j]].kind) <==> j == |spots| - 1) &&
              (j == |spots| - 1 ==> log[spots[j]].kind.RunCompleted? == success)
  {
  }

  /** The loop leaves a consistent project.  When its promotion at moment `k` has ended the
      run, no call of it was lost, and nobody else logged the start or the failure of a stage
      in the run's log while it was at work, then a read of the project right after finds no
      conflict if its workflow points at the run: the preview comes from the run, and all four
      stages have succeeded with an artifact of the latest attempt. */
  lemma SuccessIsConsistent(start: Db, scaffold: seq<Snapshot>, r: Id, world: World, path: seq<Moment>, k: nat, now: Time)
    requires Course(start, scaffold, r, world, path) && !HasLost(path) && !HasMeddled(path)
    requires RunEndsAt(path, k) && path[k].move.action.Accept? && r < |path[k].db.runs|
    requires var c := path[k].db;
             var p := c.runs[r].project; p in c.workflows && c.workflows[p].run == Some(r)
    ensures var c := path[k].db;
            var p := c.runs[r].project;
            GetProject(c, p, now).Ok? &&
            var (d, detail) := GetProject(c, p, now).value;
            detail.conflicts == [] && detail.status == CompletedFlow && detail.run == Some(r) &&
            detail.stable == DraftOf(path[k - 1].agent) && detail.version == c.workflows[p].version && AllProven(c.runs[r])
  {
    hide IsPath, GetProject, Closes, SystemOk, BookNext;
    LostIsFact(path);
    MeddledIsFact(path);
    EndCloses(start, scaffold, r, world, path, k);
    PathIsSafe(path, scaffold, k - 1);
    ClosedIsConsistent(start, scaffold, r, path[k - 1], path[k], now);
  }

  /** The move that ends the run closes the book. */
  lemma {:induction false} EndIsEntered(start: Db, scaffold: seq<Snapshot>, r: Id, world: World, path: seq<Moment>, k: nat)
    requires Course(start, scaffold, r, world, path) && RunEndsAt(path, k) && !BookOf(path).lost
    ensures BookOf(path).closed == Some(k) && Last(path).agent.Ending?
  {
    hide Course, BookOf;
    EndedForGood(start, scaffold, r, world, path, k, |path| - 1);
    var j := EntryIsEnd(start, scaffold, r, world, path);
    OneEnd(start, scaffold, r, world, path, j, k);
  }

  lemma EntryIsEnd(start: Db, scaffold: seq<Snapshot>, r: Id, world: World, path: seq<Moment>) returns (j: nat)
    requires Course(start, scaffold, r, world, path) && !BookOf(path).lost && Last(path).agent.Ending?
    ensures BookOf(path).closed == Some(j) && RunEndsAt(path, j)
  {
    hide Course, BookOf, Closes, OnCourse, SystemOk;
    WholeCourseStands(start, scaffold, r, world, path);
    j := BookOf(path).closed.value;
  }

  lemma {:induction false} EndCloses(start: Db, scaffold: seq<Snapshot>, r: Id, world: World, path: seq<Moment>, k: nat)
    requires Course(start, scaffold, r, world, path) && RunEndsAt(path, k) && !BookOf(path).lost
    ensures Closes(start, scaffold, path[k - 1], path[k], {}, !BookOf(path).meddled)
  {
    hide *;
    EndIsEntered(start, scaffold, r, world, path, k);
    WholeCourseStands(start, scaffold, r, world, path);
    ClosedThere(start, scaffold, r, path, k);
  }

  lemma {:induction false} ClosedThere(start: Db, scaffold: seq<Snapshot>, r: Id, path: seq<Moment>, k: nat)
    requires Stands(start, scaffold, r, path) && !BookOf(path).lost && Last(path).agent.Ending?
    requires BookOf(path).closed == Some(k)
    ensures RunEndsAt(path, k) && Closes(start, scaffold, path[k - 1], path[k], {}, !BookOf(path).meddled)
  {
    hide BookOf, Closes, OnCourse, SystemOk, Grows;
  }

  lemma ClosedIsConsistent(start: Db, scaffold: seq<Snapshot>, r: Id, x: Moment, y: Moment, now: Time)
    requires Closes(start, scaffold, x, y, {}, true) && y.move.action.Accept? && x.agent.run == r && r < |y.db.runs|
    requires var p := y.db.runs[r].project; p in y.db.workflows && y.db.workflows[p].run == Some(r)
    ensures var c := y.db;
            var p := c.runs[r].project;
            GetProject(c, p, now).Ok? &&
            var (d, detail) := GetProject(c, p, now).value;
            detail.conflicts == [] && detail.status == CompletedFlow && detail.run == Some(r) &&
            detail.stable == DraftOf(x.agent) && detail.version == c.workflows[p].version && AllProven(c.runs[r])
  {
    hide GetProject, AppPasses, Inv, AllProven;
    var c, v := y.db, DraftOf(x.agent).value;
    var p := c.runs[r].project;
    assert RunKept(start.runs[r], c.runs[r]);
    assert Nearest(c.versions, c.iterations, v, 0, r);
    ProvenanceIs(c.versions, c.iterations, v, 0, r);
    assert c.workflows[p].status == CompletedFlow;
    ConsistentExactly(c, p, now);
    ReadReports(c, p, now);
  }
}
