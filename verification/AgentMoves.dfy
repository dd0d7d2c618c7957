/** What a course of the loop makes of the store: along it the run's drafts and the stable
    version stay accounted for, and the write that ends it settles them. */
module AgentMoves {
  import opened Prelude
  import opened Tables
  import opened Workflows
  import opened Operations
  import opened Invariant
  import opened RunSteps
  import opened VersionSteps
  import opened Calls
  import opened Systems
  import opened SystemSafety
  import opened Interference
  import opened AgentModel
  import opened AgentPaths
  import opened AgentStages
  import opened AgentBooks
  import opened ReadingLaws
  import Gate

  /** The stages done are on show, unless a write was lost or others meddled. */
  ghost predicate OnShow(db: Db, a: Agent, g: Book) {
    (a.Booting? ==> g.done == {}) &&
    (!g.lost && !g.meddled && a.run < |db.runs| ==> Showing(db.runs[a.run], g.done))
  }

  ghost predicate IsOpen(db: Db, a: Agent, v: Id) {
    a.Working? && v < |db.versions| && db.versions[v].iteration == a.iteration
  }

  /** While the run is the loop's: the stable version has not moved, and the drafts are
      accounted for. */
  ghost predicate OnCourse(start: Db, db: Db, a: Agent, g: Book) {
    a.Live() && g.closed == None && !g.accepted && !g.spoken && OnTrack(start, db, a.run, g.open) && OnShow(db, a, g) &&
    (forall v :: v in g.open ==> IsOpen(db, a, v)) &&
    (DraftOf(a).Some? ==> DraftOf(a).value in g.open && LastMade(db, DraftOf(a).value, a.run))
  }

  /** The write that led from `x` to `y` ended the run and settled its drafts; after a
      success on a clean course all stages are proven. */
  ghost predicate Closes(start: Db, scaffold: seq<Snapshot>, x: Moment, y: Moment, open: set<Id>, clean: bool) {
    y.move.Own? && Inv(y.db, ReadOnly(scaffold)) &&
    Concluded(start, y.db, x.agent.run, open, DraftOf(x.agent), y.move.action.Accept?) &&
    (y.move.action.Accept? && clean ==> AllProven(y.db.runs[x.agent.run]))
  }

  /** No write was lost and nobody disrupted the stages. */
  predicate IsClean(g: Book) { !g.lost && !g.meddled }

  /** The run was ended at a moment of the path, or the write that should have was lost. */
  ghost predicate IsOver(start: Db, scaffold: seq<Snapshot>, path: seq<Moment>, g: Book) {
    path != [] && Last(path).agent.Ending? && (!g.lost ==> g.open == {}) &&
    match g.closed
    case None => g.lost && !g.accepted
    case Some(k) =>
      RunEndsAt(path, k) && Closes(start, scaffold, path[k - 1], path[k], g.open, IsClean(g)) &&
      g.accepted == path[k].move.action.Accept? && Grows(path[k].db, Last(path).db)
  }

  /** Exactly one terminal event was said, the last one, and it tells the outcome. */
  predicate EndsAs(said: seq<EventKind>, success: bool) {
    EndsOnce(said) && said[|said| - 1].RunCompleted? == success
  }

  ghost predicate Speech(g: Book, said: seq<EventKind>) {
    (!g.spoken ==> NothingTerminal(said)) && (g.spoken && !g.lost ==> EndsAs(said, g.accepted))
  }

  /** What holds at the end of every course. */
  ghost predicate Stands(start: Db, scaffold: seq<Snapshot>, r: Id, path: seq<Moment>) {
    path != [] && Last(path).agent.run == r && SystemOk(Alone(Last(path).db, Last(path).agent, scaffold)) &&
    Speech(BookOf(path), Said(path)) &&
    if Last(path).agent.Live() then OnCourse(start, Last(path).db, Last(path).agent, BookOf(path))
    else IsOver(start, scaffold, path, BookOf(path))
  }

  lemma StandsAtStart(start: Db, scaffold: seq<Snapshot>, r: Id)
    requires SystemOk(Alone(start, Booting(r), scaffold))
    ensures Stands(start, scaffold, r, [Moment(start, Booting(r), Others)])
  {
    hide AppPasses, IsOver;
    assert AgentOk(start, Alone(start, Booting(r), scaffold).agents[0]);
    GrowsReflexive(start);
  }

  /* ---- Single moves ---- */

  lemma MoveIsSafe(x: Moment, y: Moment, scaffold: seq<Snapshot>)
    requires SystemOk(Alone(x.db, x.agent, scaffold)) && Leads(x, y, scaffold)
    ensures SystemOk(Alone(y.db, y.agent, scaffold)) && Grows(x.db, y.db) && y.agent.run == x.agent.run
  {
    hide Effect, Gate.Passes, Inv, Grows;
    var s, s' := Alone(x.db, x.agent, scaffold), Alone(y.db, y.agent, scaffold);
    assert AgentOk(x.db, s.agents[0]);
    match y.move
    case Others => AgentStays(x.db, y.db, x.agent);
    case Heard(_) => GrowsReflexive(x.db);
    case Own(action, lost, now) =>
      ActKeeps(s, 0, action, lost, now, s');
      assert s'.agents[0] == y.agent;
  }

  /** A move that leaves the run's versions and the stable version alone stays on course. */
  lemma StaysOnCourse(start: Db, ro: FileSet, db: Db, a: Agent, g: Book, d: Db, g': Book)
    requires OnCourse(start, db, a, g) && Inv(db, ro) && Grows(db, d) && Untouched(db, d, a.run)
    requires g'.open == g.open && g'.closed == g.closed && g'.accepted == g.accepted && g'.spoken == g.spoken
    requires OnShow(d, a, g')
    ensures OnCourse(start, d, a, g')
  {
    hide Inv;
    OnTrackStays(start, db, ro, d, a.run, g.open);
    forall v | v in g.open ensures IsOpen(d, a, v) {
      assert IsOpen(db, a, v) && VersionKept(db.versions[v], d.versions[v]);
    }
  }

  lemma Emitted(db: Db, a: Agent, scaffold: seq<Snapshot>, kind: EventKind, now: Time) returns (d: Db)
    requires SystemOk(Alone(db, a, scaffold))
    ensures AppendEvent(db, a.run, kind, now) == Ok(d) && Grows(db, d) && Untouched(db, d, a.run)
    ensures a.run < |db.runs| && RunOk(db.runs[a.run]) && d.runs[a.run] == EventRow(db.runs[a.run], kind, now)
  {
    hide VersionOk, AppendEvent, EventRow, Grows;
    var ro := ReadOnly(scaffold);
    assert AgentOk(db, Alone(db, a, scaffold).agents[0]);
    AppendEventKeeps(db, ro, a.run, kind, now);
    EventUntouched(db, ro, a.run, kind, now, a.run);
    d := AppendEvent(db, a.run, kind, now).value;
  }

  lemma Recorded(db: Db, a: Agent, scaffold: seq<Snapshot>, stage: Stage, ref: string, now: Time) returns (d: Db)
    requires SystemOk(Alone(db, a, scaffold)) && a.Working?
    ensures RecordArtifact(db, a.run, a.attempt, stage, ref, now) == Ok(d) && Grows(db, d) && Untouched(db, d, a.run)
    ensures a.run < |db.runs| && RunOk(db.runs[a.run]) && a.attempt == |db.runs[a.run].attempts| - 1
    ensures d.runs[a.run] == ArtifactRow(db.runs[a.run], a.attempt, stage, ref, now)
  {
    hide VersionOk;
    var ro := ReadOnly(scaffold);
    assert AgentOk(db, Alone(db, a, scaffold).agents[0]);
    RecordArtifactKeeps(db, ro, a.run, a.attempt, stage, ref, now);
    RecordUntouched(db, ro, a.run, a.attempt, stage, ref, now, a.run);
    d := RecordArtifact(db, a.run, a.attempt, stage, ref, now).value;
  }

  lemma Begun(db: Db, a: Agent, scaffold: seq<Snapshot>, now: Time) returns (d: Db)
    requires SystemOk(Alone(db, a, scaffold)) && a.Working?
    ensures BeginAttempt(db, a.run, a.attempt, now) == Ok(d) && Grows(db, d) && Untouched(db, d, a.run)
    ensures a.run < |db.runs| && SameShown(db.runs[a.run], d.runs[a.run])
  {
    hide Inv, BeginAttempt, Grows, Untouched, RunWrite;
    var ro := ReadOnly(scaffold);
    assert AgentOk(db, Alone(db, a, scaffold).agents[0]);
    BeginAttemptKeeps(db, ro, a.run, now);
    BeginUntouched(db, ro, a.run, now, a.run);
    d := BeginAttempt(db, a.run, a.attempt, now).value;
  }

  lemma Written(start: Db, db: Db, a: Agent, scaffold: seq<Snapshot>, open: set<Id>, content: string) returns (d: Db)
    requires SystemOk(Alone(db, a, scaffold)) && a.Working? && OnTrack(start, db, a.run, open)
    ensures CreateDraft(db, start.runs[a.run].project, a.iteration, BuildFiles(scaffold, content)) == Ok((d, |db.versions|))
    ensures |db.versions| !in open && OnTrack(start, d, a.run, open + {|db.versions|})
    ensures LastMade(d, |db.versions|, a.run) && db.versions <= d.versions && d.runs == db.runs
  {
    hide Inv, Grows;
    var s, v := Alone(db, a, scaffold), |db.versions|;
    assert AgentOk(db, s.agents[0]);
    WriteActed(s, a, content);
    d := CreateDraft(db, start.runs[a.run].project, a.iteration, BuildFiles(scaffold, content)).value.0;
    OnTrackWrites(start, db, ReadOnly(scaffold), d, a.run, a.iteration, d.versions[v], open);
    assert v in open ==> Drafted(db, v, a.run);
  }

  lemma Superseded(start: Db, db: Db, a: Agent, scaffold: seq<Snapshot>, open: set<Id>, v: Id, now: Time) returns (d: Db)
    requires SystemOk(Alone(db, a, scaffold)) && a.Working? && OnTrack(start, db, a.run, open)
    requires v in open && v < |db.versions| && db.versions[v].iteration == a.iteration
    ensures FailDraft(db, v, None, now) == Ok((d, FailedVersion)) && OnTrack(start, d, a.run, open - {v})
    ensures d.runs == db.runs && forall u: Id :: LastMade(db, u, a.run) ==> LastMade(d, u, a.run)
  {
    hide Inv, FailDraft, Grows, AgentOk;
    var ro := ReadOnly(scaffold);
    assert AgentOk(db, Alone(db, a, scaffold).agents[0]);
    assert Drafted(db, v, a.run);
    FailDraftKeeps(db, ro, v, None, now);
    d := FailDraft(db, v, None, now).value.0;
    OnTrackSettles(start, db, ro, d, a.run, v, FailedVersion, open);
  }

  lemma Rejected(start: Db, db: Db, a: Agent, scaffold: seq<Snapshot>, open: set<Id>, now: Time) returns (d: Db)
    requires SystemOk(Alone(db, a, scaffold)) && a.Working? && OnTrack(start, db, a.run, open)
    requires a.draft.Some? && a.draft.value.version in open
    ensures var v := a.draft.value.version;
            FailDraft(db, v, Some((a.run, a.attempt)), now) == Ok((d, FailedVersion)) &&
            Concluded(start, d, a.run, open - {v}, Some(v), false)
  {
    hide AppPasses, Inv, FailDraft, Grows;
    var ro, v := ReadOnly(scaffold), a.draft.value.version;
    assert AgentOk(db, Alone(db, a, scaffold).agents[0]);
    assert Drafted(db, v, a.run);
    GrowsReflexive(db);
    FailDraftKeeps(db, ro, v, Some((a.run, a.attempt)), now);
    d := FailDraft(db, v, Some((a.run, a.attempt)), now).value.0;
    BumpedEnds(db, ro, d, a.run, FailedFlow, now);
    OnTrackSettles(start, db, ro, d, a.run, v, FailedVersion, open);
  }

  /** Has the stable version moved since the run was created? */
  predicate BaseMoved(start: Db, db: Db, a: Agent) {
    a.Working? && a.run < |start.runs| && start.runs[a.run].project < |start.projects| &&
    a.iteration < |db.iterations| &&
    start.projects[start.runs[a.run].project].stable != db.iterations[a.iteration].base
  }

  /** The last draft becomes the stable version, exactly if the stable version has not moved
      since the run was created; then the run has succeeded. */
  lemma Accepted(start: Db, db: Db, a: Agent, scaffold: seq<Snapshot>, open: set<Id>, now: Time)
    requires SystemOk(Alone(db, a, scaffold)) && a.Working? && OnTrack(start, db, a.run, open)
    requires a.draft.Some? && a.draft.value.version in open && LastMade(db, a.draft.value.version, a.run)
    requires Gate.Passes(a.draft.value.content)
    ensures var v := a.draft.value.version;
            var res := Promote(db, v, Some((a.run, a.attempt)), now);
            (res.Ok? <==> !BaseMoved(start, db, a)) &&
            (res.Ok? ==>
              Concluded(start, res.value.0, a.run, open - {v}, Some(v), true) &&
              a.run < |db.runs| && SameShown(db.runs[a.run], res.value.0.runs[a.run]))
  {
    hide Gate.Passes, Inv, Promote;
    var ro, v := ReadOnly(scaffold), a.draft.value.version;
    assert AgentOk(db, Alone(db, a, scaffold).agents[0]);
    assert Drafted(db, v, a.run);
    MadeForProject(db, ro, v, a.run);
    assert RunKept(start.runs[a.run], db.runs[a.run]);
    GrowsReflexive(db);
    PromoteKeeps(db, ro, v, Some((a.run, a.attempt)), now);
    var res := Promote(db, v, Some((a.run, a.attempt)), now);
    if res.Ok? {
      BumpedEnds(db, ro, res.value.0, a.run, CompletedFlow, now);
      OnTrackSettles(start, db, ro, res.value.0, a.run, v, StableVersion, open);
    }
  }

  lemma Abandoned(start: Db, db: Db, a: Agent, scaffold: seq<Snapshot>, open: set<Id>, now: Time) returns (d: Db)
    requires SystemOk(Alone(db, a, scaffold)) && a.Live() && OnTrack(start, db, a.run, open)
    ensures FailRun(db, a.run, now) == Ok(d) && Concluded(start, d, a.run, open, None, false)
  {
    hide AppPasses, Inv, FailRun, Grows, AgentOk;
    var ro := ReadOnly(scaffold);
    assert AgentOk(db, Alone(db, a, scaffold).agents[0]);
    FailRunKeeps(db, ro, a.run, now);
    FailRunUntouched(db, ro, a.run, now, a.run);
    d := FailRun(db, a.run, now).value;
    BumpedEnds(db, ro, d, a.run, FailedFlow, now);
    OnTrackStays(start, db, ro, d, a.run, open);
  }

  lemma Spoken(db: Db, a: Agent, scaffold: seq<Snapshot>, kind: EventKind, now: Time) returns (d: Db)
    requires SystemOk(Alone(db, a, scaffold))
    ensures AppendEvent(db, a.run, kind, now) == Ok(d) && Grows(db, d)
  {
    hide Inv, AppendEvent, EventRow, Grows;
    assert AgentOk(db, Alone(db, a, scaffold).agents[0]);
    AppendEventKeeps(db, ReadOnly(scaffold), a.run, kind, now);
    d := AppendEvent(db, a.run, kind, now).value;
  }

  /* ---- The loop's own moves while the run is its own ---- */

  /** What an own move leads to. */
  ghost predicate OwnStep(scaffold: seq<Snapshot>, x: Moment, y: Moment) {
    y.move.Own? && !y.move.action.Leave? &&
    var s := Alone(x.db, x.agent, scaffold);
    var res := Effect(s, x.agent, y.move.action, y.move.lost, y.move.now);
    Enabled(s, x.agent, y.move.action) && y.db == (if res.Ok? then res.value else x.db) &&
    y.agent == After(s, x.agent, y.move.action, res.Ok?)
  }

  lemma OwnMoveIsStep(x: Moment, y: Moment, scaffold: seq<Snapshot>)
    requires Leads(x, y, scaffold) && y.move.Own? && !y.move.action.Leave?
    ensures OwnStep(scaffold, x, y)
  {
    hide Effect, Tolerable, Enabled;
    assert Alone(y.db, y.agent, scaffold).agents[0] == y.agent;
  }

  lemma StepIsMove(x: Moment, y: Moment, scaffold: seq<Snapshot>)
    requires OwnStep(scaffold, x, y)
    ensures Leads(x, y, scaffold)
  {
    hide Effect, Tolerable, Enabled;
    assert map[0 := x.agent][0 := y.agent] == map[0 := y.agent];
  }

  /** The book after an own move. */
  function BookAfter(g: Book, x: Moment, y: Moment, k: nat): Book
    requires y.move.Own?
  {
    Entered(g, x, y.agent, y.move.action, y.move.lost, k)
  }

  /** The run is still the loop's. */
  ghost predicate GoesOn(start: Db, y: Moment, g: Book) { OnCourse(start, y.db, y.agent, g) }

  /** A lost move of a working loop changes no table. */
  lemma LostStep(start: Db, scaffold: seq<Snapshot>, x: Moment, y: Moment, g: Book, k: nat)
    requires OnCourse(start, x.db, x.agent, g) && OwnStep(scaffold, x, y) && y.move.lost && x.agent.Working?
    requires !y.move.action.Reject? && !y.move.action.Abandon?
    ensures GoesOn(start, y, BookAfter(g, x, y, k))
  {
    hide Perform, Gate.Passes, OnTrack, CallOf;
  }

  lemma BootStep(start: Db, scaffold: seq<Snapshot>, x: Moment, y: Moment, g: Book, k: nat)
    requires OnCourse(start, x.db, x.agent, g) && OwnStep(scaffold, x, y) && y.move.action.Boot?
    ensures GoesOn(start, y, BookAfter(g, x, y, k))
  {
    hide Perform, Gate.Passes, OnTrack;
    assert forall v :: v in g.open ==> IsOpen(x.db, x.agent, v);
  }

  lemma EmitStep(start: Db, scaffold: seq<Snapshot>, x: Moment, y: Moment, g: Book, k: nat)
    requires SystemOk(Alone(x.db, x.agent, scaffold)) && OnCourse(start, x.db, x.agent, g) && OwnStep(scaffold, x, y)
    requires y.move.action.Emit? && !y.move.lost && Harmless(y.move.action.kind, g.done)
    ensures GoesOn(start, y, BookAfter(g, x, y, k))
  {
    hide Gate.Passes;
    var d := Emitted(x.db, x.agent, scaffold, y.move.action.kind, y.move.now);
    if !g.lost && !g.meddled {
      EventShowing(x.db.runs[x.agent.run], y.move.action.kind, y.move.now, g.done);
    }
    StaysOnCourse(start, ReadOnly(scaffold), x.db, x.agent, g, d, BookAfter(g, x, y, k));
  }

  lemma RecordStep(start: Db, scaffold: seq<Snapshot>, x: Moment, y: Moment, g: Book, k: nat)
    requires SystemOk(Alone(x.db, x.agent, scaffold)) && OnCourse(start, x.db, x.agent, g) && OwnStep(scaffold, x, y)
    requires y.move.action.Record? && !y.move.lost
    ensures GoesOn(start, y, BookAfter(g, x, y, k))
  {
    hide Gate.Passes, Inv, RecordArtifact, AppendEvent;
    var s, ref := y.move.action.stage, y.move.action.ref;
    var d := Recorded(x.db, x.agent, scaffold, s, ref, y.move.now);
    if !g.lost && !g.meddled {
      ArtifactShowing(x.db.runs[x.agent.run], s, ref, y.move.now, g.done);
    }
    StaysOnCourse(start, ReadOnly(scaffold), x.db, x.agent, g, d, BookAfter(g, x, y, k));
  }

  lemma BeginStep(start: Db, scaffold: seq<Snapshot>, x: Moment, y: Moment, g: Book, k: nat)
    requires SystemOk(Alone(x.db, x.agent, scaffold)) && OnCourse(start, x.db, x.agent, g) && OwnStep(scaffold, x, y)
    requires y.move.action.Begin? && !y.move.lost
    ensures GoesOn(start, y, BookAfter(g, x, y, k))
  {
    hide Gate.Passes, Inv;
    var d := Begun(x.db, x.agent, scaffold, y.move.now);
    if !g.lost && !g.meddled {
      SameShowing(x.db.runs[x.agent.run], d.runs[x.agent.run], g.done);
    }
    StaysOnCourse(start, ReadOnly(scaffold), x.db, x.agent, g, d, BookAfter(g, x, y, k));
  }

  lemma WriteStep(start: Db, scaffold: seq<Snapshot>, x: Moment, y: Moment, g: Book, k: nat)
    requires SystemOk(Alone(x.db, x.agent, scaffold)) && OnCourse(start, x.db, x.agent, g) && OwnStep(scaffold, x, y)
    requires y.move.action.Write? && !y.move.lost
    ensures GoesOn(start, y, BookAfter(g, x, y, k))
  {
    hide Effect, Gate.Passes, SystemOk, OnTrack;
    var d := WrittenBy(start, scaffold, x, g, y.move.action.content, y.move.now);
    forall v | v in g.open ensures IsOpen(d, y.agent, v) {
      assert IsOpen(x.db, x.agent, v);
    }
  }

  /** The store call of a write. */
  lemma WrittenBy(start: Db, scaffold: seq<Snapshot>, x: Moment, g: Book, content: string, now: Time) returns (d: Db)
    requires SystemOk(Alone(x.db, x.agent, scaffold)) && OnCourse(start, x.db, x.agent, g) && x.agent.Working?
    ensures Effect(Alone(x.db, x.agent, scaffold), x.agent, Write(content), false, now) == Ok(d)
    ensures OnTrack(start, d, x.agent.run, g.open + {|x.db.versions|}) && LastMade(d, |x.db.versions|, x.agent.run)
    ensures x.db.versions <= d.versions && |d.versions| == |x.db.versions| + 1 && d.runs == x.db.runs
    ensures d.versions[|x.db.versions|].iteration == x.agent.iteration
    ensures CreateDraft(x.db, start.runs[x.agent.run].project, x.agent.iteration, BuildFiles(scaffold, content)) ==
            Ok((d, |x.db.versions|))
  {
    hide SystemOk, AppendEvent;
    d := Written(start, x.db, x.agent, scaffold, g.open, content);
  }

  lemma SupersedeStep(start: Db, scaffold: seq<Snapshot>, x: Moment, y: Moment, g: Book, k: nat)
    requires SystemOk(Alone(x.db, x.agent, scaffold)) && OnCourse(start, x.db, x.agent, g) && OwnStep(scaffold, x, y)
    requires y.move.action.Supersede? && !y.move.lost && y.move.action.version in g.open
    ensures GoesOn(start, y, BookAfter(g, x, y, k))
  {
    hide Gate.Passes, SystemOk;
    var v := y.move.action.version;
    assert IsOpen(x.db, x.agent, v);
    var d := Superseded(start, x.db, x.agent, scaffold, g.open, v, y.move.now);
    SupersededKeepsOpen(x.db, x.agent, v, y.move.now, g);
  }

  lemma SupersededKeepsOpen(db: Db, a: Agent, v: Id, now: Time, g: Book)
    requires v < |db.versions| && FailDraft(db, v, None, now).Ok? && forall u :: u in g.open ==> IsOpen(db, a, u)
    ensures var d := FailDraft(db, v, None, now).value.0; forall u :: u in g.open ==> IsOpen(d, a, u)
  {
  }

  /* ---- The end of the run ---- */

  /** The book closes at moment `k`, unless the write was lost. */
  ghost predicate EndsRun(start: Db, scaffold: seq<Snapshot>, x: Moment, y: Moment, g: Book, k: nat) {
    y.move.Own? && x.agent.Live() && y.agent.Ending? && !g.spoken && (!g.lost ==> g.open == {}) &&
    if y.move.lost then g.closed == None && g.lost && !g.accepted
    else
      g.closed == Some(k) && g.accepted == y.move.action.Accept? &&
      Closes(start, scaffold, x, y, g.open, IsClean(g))
  }

  /** The tables after a call, or before it if it was lost or refused. */
  function Unless(lost: bool, db: Db, res: Result<Db>): Db { if !lost && res.Ok? then res.value else db }

  /** Rejecting or abandoning closes the book. */
  lemma EndEntered(g: Book, x: Moment, b: Agent, action: Action, lost: bool, k: nat)
    requires action.Reject? || action.Abandon?
    ensures var h := Entered(g, x, b, action, lost, k);
            h.booted == g.booted && h.written == g.written && h.troubled == g.troubled &&
            h.accepted == g.accepted && h.spoken == g.spoken && h.heard == g.heard && h.calls == g.calls + 1 &&
            h.lost == (g.lost || lost) && h.meddled == g.meddled && h.closed == (if lost then g.closed else Some(k)) &&
            h.open == if lost || action.Abandon? then g.open else g.open - OnlyCurrent(DraftOf(x.agent))
  {
  }

  /** Accepting closes the book if it goes through, and is trouble if not. */
  lemma AcceptEntered(g: Book, x: Moment, b: Agent, lost: bool, k: nat)
    ensures var h := Entered(g, x, b, Accept, lost, k);
            h.booted == g.booted && h.written == g.written && h.done == g.done && h.spoken == g.spoken &&
            h.heard == g.heard && h.calls == g.calls + 1 && h.lost == (g.lost || lost) && h.meddled == g.meddled &&
            if b.Ending? then
              h.accepted && h.troubled == g.troubled && h.closed == Some(k) && h.open == g.open - OnlyCurrent(DraftOf(x.agent))
            else h.troubled && h.accepted == g.accepted && h.closed == g.closed && h.open == g.open
  {
  }

  lemma RejectDoes(scaffold: seq<Snapshot>, x: Moment, y: Moment)
    requires OwnStep(scaffold, x, y) && y.move.action.Reject?
    ensures x.agent.Working? && x.agent.draft.Some? && y.agent == Ending(x.agent.run)
    ensures var res := FailDraft(x.db, x.agent.draft.value.version, Some((x.agent.run, x.agent.attempt)), y.move.now);
            y.db == Unless(y.move.lost, x.db, TablesOf(res))
  {
    hide Gate.Passes, AppendEvent;
  }

  lemma AbandonDoes(scaffold: seq<Snapshot>, x: Moment, y: Moment)
    requires OwnStep(scaffold, x, y) && y.move.action.Abandon?
    ensures y.agent == Ending(x.agent.run) && y.db == Unless(y.move.lost, x.db, FailRun(x.db, x.agent.run, y.move.now))
  {
    hide Enabled, AppendEvent;
  }

  lemma AcceptDoes(scaffold: seq<Snapshot>, x: Moment, y: Moment)
    requires OwnStep(scaffold, x, y) && y.move.action.Accept?
    ensures x.agent.Working? && x.agent.draft.Some? && Gate.Passes(x.agent.draft.value.content)
    ensures var res := Promote(x.db, x.agent.draft.value.version, Some((x.agent.run, x.agent.attempt)), y.move.now);
            y.agent == (if !y.move.lost && res.Ok? then Ending(x.agent.run) else x.agent) &&
            y.db == Unless(y.move.lost, x.db, TablesOf(res))
  {
    hide Gate.Passes, AppendEvent, RecordArtifact, Promote, FailDraft;
  }

  lemma RejectStep(start: Db, scaffold: seq<Snapshot>, x: Moment, y: Moment, g: Book, k: nat)
    requires SystemOk(Alone(x.db, x.agent, scaffold)) && Inv(y.db, ReadOnly(scaffold))
    requires OnCourse(start, x.db, x.agent, g) && OwnStep(scaffold, x, y)
    requires y.move.action.Reject? && (g.lost || g.open == OnlyCurrent(DraftOf(x.agent)))
    ensures EndsRun(start, scaffold, x, y, BookAfter(g, x, y, k), k)
  {
    RejectDoes(scaffold, x, y);
    EndEntered(g, x, y.agent, Reject, y.move.lost, k);
    if !y.move.lost {
      var d := Rejected(start, x.db, x.agent, scaffold, g.open, y.move.now);
    }
  }

  lemma AbandonStep(start: Db, scaffold: seq<Snapshot>, x: Moment, y: Moment, g: Book, k: nat)
    requires SystemOk(Alone(x.db, x.agent, scaffold)) && Inv(y.db, ReadOnly(scaffold))
    requires OnCourse(start, x.db, x.agent, g) && OwnStep(scaffold, x, y)
    requires y.move.action.Abandon? && (g.lost || g.open == {})
    ensures EndsRun(start, scaffold, x, y, BookAfter(g, x, y, k), k)
  {
    AbandonDoes(scaffold, x, y);
    EndEntered(g, x, y.agent, Abandon, y.move.lost, k);
    if !y.move.lost {
      var d := Abandoned(start, x.db, x.agent, scaffold, g.open, y.move.now);
      ConcludedWithout(start, d, x.agent.run, g.open, DraftOf(x.agent));
    }
  }

  /** A failure is the same with any draft. */
  lemma ConcludedWithout(start: Db, c: Db, r: Id, open: set<Id>, draft: Option<Id>)
    requires Concluded(start, c, r, open, None, false)
    ensures Concluded(start, c, r, open, draft, false)
  {
    hide AppPasses, Grows;
  }

  /** With all stages on show before the last write, they are proven after it. */
  lemma ShownIsProven(db: Db, a: Agent, g: Book, c: Db, ro: FileSet)
    requires OnShow(db, a, g) && a.run < |db.runs| && a.run < |c.runs| && Inv(c, ro)
    requires SameShown(db.runs[a.run], c.runs[a.run])
    ensures IsClean(g) && g.done == ALL_STAGES ==> AllProven(c.runs[a.run])
  {
    hide VersionOk, AllProven, RunOk, ProjectOk, IterationOk;
    if IsClean(g) && g.done == ALL_STAGES {
      SameShowing(db.runs[a.run], c.runs[a.run], ALL_STAGES);
      AllShownIsProven(c.runs[a.run]);
    }
  }

  lemma AcceptStep(start: Db, scaffold: seq<Snapshot>, x: Moment, y: Moment, g: Book, k: nat)
    requires SystemOk(Alone(x.db, x.agent, scaffold)) && Inv(y.db, ReadOnly(scaffold))
    requires OnCourse(start, x.db, x.agent, g) && OwnStep(scaffold, x, y) && y.move.action.Accept? && !y.move.lost
    requires g.done == ALL_STAGES && (g.lost || g.open == OnlyCurrent(DraftOf(x.agent)))
    ensures if y.agent.Ending? then EndsRun(start, scaffold, x, y, BookAfter(g, x, y, k), k)
            else GoesOn(start, y, BookAfter(g, x, y, k))
  {
    AcceptDoes(scaffold, x, y);
    AcceptEntered(g, x, y.agent, false, k);
    Accepted(start, x.db, x.agent, scaffold, g.open, y.move.now);
    if y.agent.Ending? {
      ShownIsProven(x.db, x.agent, g, y.db, ReadOnly(scaffold));
    }
  }

  /** Whatever own move comes while the run is the loop's, it goes on or ends the run. */
  lemma LiveStep(start: Db, scaffold: seq<Snapshot>, x: Moment, y: Moment, g: Book, k: nat)
    requires SystemOk(Alone(x.db, x.agent, scaffold)) && Inv(y.db, ReadOnly(scaffold))
    requires OnCourse(start, x.db, x.agent, g) && OwnStep(scaffold, x, y) && InOrder(g, x.agent, y.move.action)
    ensures if y.agent.Live() then GoesOn(start, y, BookAfter(g, x, y, k))
            else EndsRun(start, scaffold, x, y, BookAfter(g, x, y, k), k)
    ensures !y.move.action.LastWords?
  {
    if y.move.action.Reject? {
      RejectStep(start, scaffold, x, y, g, k);
    } else if y.move.action.Abandon? {
      AbandonStep(start, scaffold, x, y, g, k);
    } else if y.move.action.Boot? {
      BootStep(start, scaffold, x, y, g, k);
    } else if y.move.lost {
      LostStep(start, scaffold, x, y, g, k);
    } else if y.move.action.Accept? {
      AcceptStep(start, scaffold, x, y, g, k);
    } else {
      WorkStep(start, scaffold, x, y, g, k);
    }
  }

  lemma WorkStep(start: Db, scaffold: seq<Snapshot>, x: Moment, y: Moment, g: Book, k: nat)
    requires SystemOk(Alone(x.db, x.agent, scaffold)) && OnCourse(start, x.db, x.agent, g) && OwnStep(scaffold, x, y)
    requires InOrder(g, x.agent, y.move.action) && !y.move.lost && !y.move.action.Boot?
    requires !y.move.action.Reject? && !y.move.action.Abandon? && !y.move.action.Accept?
    ensures y.agent.Live() && GoesOn(start, y, BookAfter(g, x, y, k)) && !y.move.action.LastWords?
  {
    hide Effect, Gate.Passes, SystemOk, OnTrack, BookAfter;
    match y.move.action
    case Emit(_) => EmitStep(start, scaffold, x, y, g, k);
    case Record(_, _) => RecordStep(start, scaffold, x, y, g, k);
    case Begin => BeginStep(start, scaffold, x, y, g, k);
    case Write(_) => WriteStep(start, scaffold, x, y, g, k);
    case Supersede(_) => SupersedeStep(start, scaffold, x, y, g, k);
  }

  /* ---- Whole courses ---- */

  /** A move that ends nothing leaves a run that is over as it is. */
  lemma OverStays(start: Db, scaffold: seq<Snapshot>, path: seq<Moment>, y: Moment, g: Book, g': Book)
    requires IsOver(start, scaffold, path, g) && y.agent == Last(path).agent && Grows(Last(path).db, y.db)
    requires g'.open == g.open && g'.closed == g.closed && g'.accepted == g.accepted
    requires (g.lost ==> g'.lost) && (IsClean(g') ==> IsClean(g))
    ensures IsOver(start, scaffold, path + [y], g')
  {
    if g.closed.Some? {
      var k := g.closed.value;
      assert (path + [y])[k] == path[k] && (path + [y])[k - 1] == path[k - 1];
      GrowsTransitive(path[k].db, Last(path).db, y.db);
    }
  }

  /** The move that ends the run. */
  lemma OverBegins(start: Db, scaffold: seq<Snapshot>, path: seq<Moment>, y: Moment, g': Book)
    requires path != [] && EndsRun(start, scaffold, Last(path), y, g', |path|)
    ensures IsOver(start, scaffold, path + [y], g')
  {
    hide Closes, Grows;
    GrowsReflexive(y.db);
  }

  /** Others act, or the model answers, while the run is the loop's. */
  lemma LiveWaits(start: Db, scaffold: seq<Snapshot>, x: Moment, y: Moment, g: Book, k: nat)
    requires SystemOk(Alone(x.db, x.agent, scaffold)) && OnCourse(start, x.db, x.agent, g)
    requires Leads(x, y, scaffold) && !y.move.Own?
    ensures y.agent == x.agent && OnCourse(start, y.db, y.agent, BookNext(g, x, y, k))
  {
    hide Acts, Inv, Entered, Grows;
    var g' := BookNext(g, x, y, k);
    if y.move.Others? {
      if !g'.lost && !g'.meddled {
        KeptShowing(x.db.runs[x.agent.run], y.db.runs[x.agent.run], g.done);
      }
      StaysOnCourse(start, ReadOnly(scaffold), x.db, x.agent, g, y.db, g');
    }
  }

  /** An agent whose run has ended only speaks. */
  lemma EndedSpeaks(x: Moment, y: Moment, scaffold: seq<Snapshot>, g: Book)
    requires SystemOk(Alone(x.db, x.agent, scaffold)) && Leads(x, y, scaffold) && x.agent.Ending?
    requires y.move.Own? && InOrder(g, x.agent, y.move.action)
    ensures y.move.action.LastWords? && y.agent == x.agent
  {
    hide Effect, Gate.Passes, Leads, SystemOk;
    OwnMoveIsStep(x, y, scaffold);
  }

  lemma SpeechNext(g: Book, said: seq<EventKind>, x: Moment, y: Moment, k: nat)
    requires Speech(g, said) && (x.agent.Live() ==> !g.spoken)
    requires y.move.Own? ==> InOrder(g, x.agent, y.move.action) && (y.move.action.Emit? ==> !IsTerminal(y.move.action.kind))
    requires y.move.Own? && !y.move.action.LastWords? ==> x.agent.Live()
    ensures Speech(BookNext(g, x, y, k), said + Uttered(y.move))
  {
    if y.move.Own? && y.move.action.LastWords? {
      WordsNext(g, said, x, y, k);
    } else {
      QuietSpeech(g, said, x, y, k);
    }
  }

  lemma WordsNext(g: Book, said: seq<EventKind>, x: Moment, y: Moment, k: nat)
    requires Speech(g, said) && y.move.Own? && y.move.action.LastWords? && InOrder(g, x.agent, y.move.action)
    ensures Speech(BookNext(g, x, y, k), said + Uttered(y.move))
  {
    var kind := y.move.action.kind;
    assert (said + [kind])[..|said|] == said;
    assert said + [] == said;
  }

  lemma QuietSpeech(g: Book, said: seq<EventKind>, x: Moment, y: Moment, k: nat)
    requires Speech(g, said) && (x.agent.Live() ==> !g.spoken)
    requires y.move.Own? ==> !y.move.action.LastWords? && x.agent.Live()
    requires y.move.Own? && y.move.action.Emit? ==> !IsTerminal(y.move.action.kind)
    ensures Speech(BookNext(g, x, y, k), said + Uttered(y.move))
  {
    BookKeepsSpeech(g, x, y, k);
    assert said + [] == said;
  }

  lemma BookKeepsSpeech(g: Book, x: Moment, y: Moment, k: nat)
    requires y.move.Own? ==> !y.move.action.LastWords?
    ensures var h := BookNext(g, x, y, k);
            h.spoken == g.spoken && (!y.move.Own? ==> h.accepted == g.accepted && h.lost == g.lost)
  {
    if y.move.Own? {
      QuietEntered(g, x, y.agent, y.move.action, y.move.lost, k);
    }
  }

  lemma QuietEntered(g: Book, x: Moment, b: Agent, action: Action, lost: bool, k: nat)
    requires !action.LastWords?
    ensures Entered(g, x, b, action, lost, k).spoken == g.spoken
  {
    match action
    case Accept =>
    case _ =>
  }

  /** The speech of a course goes on with the move. */
  lemma {:induction false} SpeechStands(start: Db, scaffold: seq<Snapshot>, r: Id, path: seq<Moment>, y: Moment, world: World)
    requires Stands(start, scaffold, r, path) && Leads(Last(path), y, scaffold)
    requires Allowed(BookOf(path), Last(path).agent, y.move, world)
    ensures Speech(BookNext(BookOf(path), Last(path), y, |path|), Said(path) + Uttered(y.move))
  {
    var x := Last(path);
    if y.move.Own? {
      OwnMoveIsStep(x, y, scaffold);
      if x.agent.Ending? {
        EndedSpeaks(x, y, scaffold, BookOf(path));
      }
    }
    SpeechNext(BookOf(path), Said(path), x, y, |path|);
  }

  ghost predicate StandsAfter(start: Db, scaffold: seq<Snapshot>, path: seq<Moment>, g: Book) {
    path != [] &&
    if Last(path).agent.Live() then OnCourse(start, Last(path).db, Last(path).agent, g)
    else IsOver(start, scaffold, path, g)
  }

  lemma LiveStands(start: Db, scaffold: seq<Snapshot>, path: seq<Moment>, y: Moment, g: Book, world: World)
    requires path != [] && OnCourse(start, Last(path).db, Last(path).agent, g) && Leads(Last(path), y, scaffold)
    requires SystemOk(Alone(Last(path).db, Last(path).agent, scaffold)) && SystemOk(Alone(y.db, y.agent, scaffold))
    requires Allowed(g, Last(path).agent, y.move, world)
    ensures StandsAfter(start, scaffold, path + [y], BookNext(g, Last(path), y, |path|))
  {
    hide Effect, Gate.Passes, Inv, Closes;
    var x := Last(path);
    if y.move.Own? {
      OwnMoveIsStep(x, y, scaffold);
      LiveStep(start, scaffold, x, y, g, |path|);
      if !y.agent.Live() {
        OverBegins(start, scaffold, path, y, BookAfter(g, x, y, |path|));
      }
    } else {
      LiveWaits(start, scaffold, x, y, g, |path|);
    }
  }

  lemma OverStands(start: Db, scaffold: seq<Snapshot>, path: seq<Moment>, y: Moment, g: Book, world: World)
    requires IsOver(start, scaffold, path, g) && Leads(Last(path), y, scaffold)
    requires SystemOk(Alone(Last(path).db, Last(path).agent, scaffold))
    requires Allowed(g, Last(path).agent, y.move, world)
    ensures StandsAfter(start, scaffold, path + [y], BookNext(g, Last(path), y, |path|))
  {
    hide Acts, Inv, Closes, OnCourse;
    var x := Last(path);
    MoveIsSafe(x, y, scaffold);
    if y.move.Own? {
      EndedSpeaks(x, y, scaffold, g);
    }
    SpokenBook(g, x, y, |path|);
    OverStays(start, scaffold, path, y, g, BookNext(g, x, y, |path|));
  }

  lemma SpokenBook(g: Book, x: Moment, y: Moment, k: nat)
    requires x.agent.Ending? && (y.move.Own? ==> y.move.action.LastWords?)
    ensures var h := BookNext(g, x, y, k);
            h.open == g.open && h.closed == g.closed && h.accepted == g.accepted && h.meddled == g.meddled &&
            (g.lost ==> h.lost)
  {
    if y.move.Own? {
      SpokenEntered(g, x, y.agent, y.move.action.kind, y.move.lost, k);
    }
  }

  lemma SpokenEntered(g: Book, x: Moment, b: Agent, kind: EventKind, lost: bool, k: nat)
    ensures var h := Entered(g, x, b, LastWords(kind), lost, k);
            h.open == g.open && h.closed == g.closed && h.accepted == g.accepted && h.meddled == g.meddled &&
            (g.lost ==> h.lost)
  {
  }

  lemma {:induction false} StandsNext(start: Db, scaffold: seq<Snapshot>, r: Id, path: seq<Moment>, y: Moment, world: World)
    requires Stands(start, scaffold, r, path) && IsPath(path, scaffold) && Leads(Last(path), y, scaffold)
    requires Allowed(BookOf(path), Last(path).agent, y.move, world)
    ensures Stands(start, scaffold, r, path + [y])
  {
    hide Leads, IsOver, BookNext, OnCourse, SystemOk;
    BookExtends(path, y);
    PathExtends(path, y, scaffold);
    MoveIsSafe(Last(path), y, scaffold);
    SpeechStands(start, scaffold, r, path, y, world);
    if Last(path).agent.Live() {
      LiveStands(start, scaffold, path, y, BookOf(path), world);
    } else {
      OverStands(start, scaffold, path, y, BookOf(path), world);
    }
  }

  /** The course up to moment `k` and the move that goes on from there. */
  lemma CourseAt(start: Db, scaffold: seq<Snapshot>, r: Id, world: World, path: seq<Moment>, k: nat)
    requires Course(start, scaffold, r, world, path) && 0 < k < |path|
    ensures IsPath(path[..k], scaffold) && Leads(Last(path[..k]), path[k], scaffold)
    ensures Allowed(BookOf(path[..k]), Last(path[..k]).agent, path[k].move, world)
    ensures path[..k + 1] == path[..k] + [path[k]]
  {
    hide Leads, SystemOk, BookOf, Allowed;
    assert LeadsAt(path, k, scaffold) && AllowedAt(path, k, world);
    PathUpTo(path, scaffold, k);
    LastUpTo(path, k);
  }

  lemma LastUpTo(path: seq<Moment>, k: nat)
    requires 0 < k < |path|
    ensures Last(path[..k]) == path[k - 1] && path[..k + 1] == path[..k] + [path[k]]
  {
  }

  lemma PathUpTo(path: seq<Moment>, scaffold: seq<Snapshot>, k: nat)
    requires IsPath(path, scaffold) && 0 < k <= |path|
    ensures IsPath(path[..k], scaffold)
  {
    hide Leads;
    forall j | 0 < j < k ensures LeadsAt(path[..k], j, scaffold) {
      assert LeadsAt(path, j, scaffold);
    }
  }

  /** Whatever the world has in store and others do, at every moment of every course the
      drafts and the stable version are accounted for, or the run is over and settled. */
  lemma CourseStands(start: Db, scaffold: seq<Snapshot>, r: Id, world: World, path: seq<Moment>, n: nat)
    requires Course(start, scaffold, r, world, path) && 0 < n <= |path|
    ensures Stands(start, scaffold, r, path[..n])
  {
    hide Leads, Stands, SystemOk, BookOf, Allowed;
    StandsAtStart(start, scaffold, r);
    assert path[..1] == [Moment(start, Booting(r), Others)];
    for k := 1 to n
      invariant Stands(start, scaffold, r, path[..k])
    {
      CourseAt(start, scaffold, r, world, path, k);
      StandsNext(start, scaffold, r, path[..k], path[k], world);
    }
  }

  lemma WholeCourseStands(start: Db, scaffold: seq<Snapshot>, r: Id, world: World, path: seq<Moment>)
    requires Course(start, scaffold, r, world, path)
    ensures Stands(start, scaffold, r, path)
  {
    hide LeadsAt, Stands, SystemOk, AllowedAt;
    CourseStands(start, scaffold, r, world, path, |path|);
    assert path[..|path|] == path;
  }
}
