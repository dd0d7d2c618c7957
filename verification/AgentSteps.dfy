/** How a course goes on with each store call of the loop: what the store has to hold for the
    call to go through, and what it makes of store, agent and book. */
module AgentSteps {
  import opened Prelude
  import opened Tables
  import opened Workflows
  import opened Operations
  import opened Invariant
  import opened RunSteps
  import opened Calls
  import opened Systems
  import opened SystemSafety
  import opened AgentModel
  import opened AgentPaths
  import opened AgentBooks
  import opened AgentStages
  import opened AgentMoves
  import Gate

  /** The work entered in two books is the same; calls may have been lost since. */
  predicate SameWork(g: Book, h: Book) {
    h.booted == g.booted && h.open == g.open && h.done == g.done && h.written == g.written && h.troubled == g.troubled &&
    (g.lost ==> h.lost)
  }

  /** A stage is done in addition. */
  predicate MoreDone(g: Book, h: Book, s: Stage) {
    h.booted == g.booted && h.open == g.open && h.done == g.done + {s} && h.written == g.written &&
    h.troubled == g.troubled && (g.lost ==> h.lost)
  }

  lemma MoreDoneAfter(g: Book, m: Book, h: Book, s: Stage)
    requires SameWork(g, m) && MoreDone(m, h, s)
    ensures MoreDone(g, h, s)
  {
  }

  /** The loop is in trouble in addition, if `failed`. */
  predicate MoreTrouble(g: Book, h: Book, failed: bool) {
    h.booted == g.booted && h.open == g.open && h.done == g.done && h.written == g.written &&
    h.troubled == (g.troubled || failed) && (g.lost ==> h.lost)
  }

  lemma MoreTroubleAfter(g: Book, m: Book, h: Book, failed: bool)
    requires SameWork(g, m) && MoreTrouble(m, h, failed)
    ensures MoreTrouble(g, h, failed)
  {
  }

  /** A draft with the content was stored, or lost, in addition. */
  predicate MoreWritten(g: Book, h: Book, content: string, draft: Option<Id>) {
    h.booted == g.booted && h.open == g.open + OnlyCurrent(draft) && h.done == g.done &&
    h.written == g.written + [content] && h.troubled == (g.troubled || draft.None?) && (g.lost ==> h.lost)
  }

  lemma MoreWrittenAfter(g: Book, m: Book, h: Book, content: string, draft: Option<Id>)
    requires SameWork(g, m) && MoreWritten(m, h, content, draft)
    ensures MoreWritten(g, h, content, draft)
  {
  }

  /** A draft was closed in addition, unless the call was lost. */
  predicate LessOpen(g: Book, h: Book, v: Id, lost: bool) {
    h.booted == g.booted && h.open == (if lost then g.open else g.open - {v}) && h.done == g.done &&
    h.written == g.written && h.troubled == g.troubled && (g.lost || lost ==> h.lost)
  }

  lemma LessOpenAfter(g: Book, m: Book, h: Book, v: Id, lost: bool)
    requires SameWork(g, m) && LessOpen(m, h, v, lost)
    ensures LessOpen(g, h, v, lost)
  {
  }

  /** The same but for the drafts that are open. */
  predicate SameProgress(g: Book, h: Book) {
    h.booted == g.booted && h.done == g.done && h.written == g.written && h.troubled == g.troubled
  }

  /** The content was written in addition, and that failed unless `ok`. */
  predicate Submitted(g: Book, h: Book, content: string, ok: bool) {
    h.booted == g.booted && h.done == g.done && h.written == g.written + [content] && h.troubled == (g.troubled || !ok)
  }

  /** The loop has come to an outcome, or into trouble. */
  predicate Decides(g: Book, h: Book, ok: bool) { h.booted == g.booted && h.written == g.written && h.troubled == !ok }

  /** What the books say about the run's end is the same. */
  predicate SameEnd(g: Book, h: Book) { h.accepted == g.accepted && h.spoken == g.spoken }

  /** What the books say about the outcome is the same. */
  predicate SameResult(g: Book, h: Book) { h.booted == g.booted && h.written == g.written && h.troubled == g.troubled }

  /** The loop has not moved on: same agent, same work. */
  ghost predicate Keeps(p: seq<Moment>, q: seq<Moment>) {
    p != [] && q != [] && Last(q).agent == Last(p).agent && SameWork(BookOf(p), BookOf(q)) && SameEnd(BookOf(p), BookOf(q))
  }

  lemma CourseIsSafe(start: Db, scaffold: seq<Snapshot>, r: Id, world: World, path: seq<Moment>)
    requires Course(start, scaffold, r, world, path)
    ensures SystemOk(Alone(Last(path).db, Last(path).agent, scaffold)) && Last(path).agent.run == r
    ensures AgentOk(Last(path).db, Last(path).agent)
  {
    hide Course, Inv, IsOver, OnCourse, BookOf;
    WholeCourseStands(start, scaffold, r, world, path);
    assert AgentOk(Last(path).db, Alone(Last(path).db, Last(path).agent, scaffold).agents[0]);
  }

  /** Others act. */
  lemma {:induction false} Waits(start: Db, scaffold: seq<Snapshot>, r: Id, world: World, path: seq<Moment>, d: Db)
    requires Course(start, scaffold, r, world, path)
    requires Tolerable(Last(path).db, d, Last(path).agent, ReadOnly(scaffold))
    ensures var p := path + [Moment(d, Last(path).agent, Others)];
            Course(start, scaffold, r, world, p) && Keeps(path, p) &&
            BookOf(p).calls == BookOf(path).calls && BookOf(p).heard == BookOf(path).heard
  {
    CourseExtends(start, scaffold, r, world, path, Moment(d, Last(path).agent, Others));
  }

  /** The model answers. */
  lemma {:induction false} Hears(start: Db, scaffold: seq<Snapshot>, r: Id, world: World, path: seq<Moment>, a: Answer)
    requires Course(start, scaffold, r, world, path) && a == world.model(BookOf(path).heard)
    ensures var p := path + [Moment(Last(path).db, Last(path).agent, Heard(a))];
            Course(start, scaffold, r, world, p) && Keeps(path, p) &&
            BookOf(p).calls == BookOf(path).calls && BookOf(p).heard == BookOf(path).heard + 1
  {
    hide Acts, Tolerable, Course;
    CourseExtends(start, scaffold, r, world, path, Moment(Last(path).db, Last(path).agent, Heard(a)));
  }

  /** The move of an action whose store call had the outcome `res`. */
  function MomentOf(scaffold: seq<Snapshot>, x: Moment, action: Action, lost: bool, now: Time): Moment {
    var s := Alone(x.db, x.agent, scaffold);
    var res := Effect(s, x.agent, action, lost, now);
    Moment(if res.Ok? then res.value else x.db, After(s, x.agent, action, res.Ok?), Own(action, lost, now))
  }

  lemma MomentIsStep(scaffold: seq<Snapshot>, x: Moment, action: Action, lost: bool, now: Time)
    requires Enabled(Alone(x.db, x.agent, scaffold), x.agent, action) && !action.Leave?
    ensures Leads(x, MomentOf(scaffold, x, action, lost, now), scaffold)
    ensures MomentOf(scaffold, x, action, lost, now).move == Own(action, lost, now)
  {
    hide Effect, Leads, Enabled, After;
    StepIsMove(x, MomentOf(scaffold, x, action, lost, now), scaffold);
  }

  lemma {:induction false} GoesOnBy(start: Db, scaffold: seq<Snapshot>, r: Id, world: World, path: seq<Moment>, y: Moment,
                 action: Action, lost: bool, now: Time)
    requires Course(start, scaffold, r, world, path) && Leads(Last(path), y, scaffold) && y.move == Own(action, lost, now)
    requires InOrder(BookOf(path), Last(path).agent, action)
    requires action.Boot? || world.store(BookOf(path).calls) == Response(!lost, now)
    ensures Course(start, scaffold, r, world, path + [y]) && Last(path + [y]) == y
    ensures BookOf(path + [y]) == Entered(BookOf(path), Last(path), y.agent, action, lost, |path|)
  {
    hide Leads, Course, Entered, InOrder;
    CourseExtends(start, scaffold, r, world, path, y);
  }

  /** The loop makes a move of its own. */
  lemma {:induction false} Moves(start: Db, scaffold: seq<Snapshot>, r: Id, world: World, path: seq<Moment>,
          action: Action, lost: bool, now: Time)
    requires Course(start, scaffold, r, world, path) && InOrder(BookOf(path), Last(path).agent, action) && !action.Leave?
    requires Enabled(Alone(Last(path).db, Last(path).agent, scaffold), Last(path).agent, action)
    requires action.Boot? || world.store(BookOf(path).calls) == Response(!lost, now)
    ensures var y := MomentOf(scaffold, Last(path), action, lost, now);
            Course(start, scaffold, r, world, path + [y]) && Last(path + [y]) == y &&
            BookOf(path + [y]) == Entered(BookOf(path), Last(path), y.agent, action, lost, |path|)
  {
    hide *;
    var y := MomentOf(scaffold, Last(path), action, lost, now);
    MomentIsStep(scaffold, Last(path), action, lost, now);
    GoesOnBy(start, scaffold, r, world, path, y, action, lost, now);
  }

  /** What a course that still goes on lets the loop count on. */
  lemma {:induction false} CourseTracks(start: Db, scaffold: seq<Snapshot>, r: Id, world: World, path: seq<Moment>)
    requires Course(start, scaffold, r, world, path) && Last(path).agent.Live()
    ensures OnTrack(start, Last(path).db, r, BookOf(path).open) && !BookOf(path).accepted && !BookOf(path).spoken
    ensures DraftOf(Last(path).agent).Some? ==>
              DraftOf(Last(path).agent).value in BookOf(path).open &&
              LastMade(Last(path).db, DraftOf(Last(path).agent).value, r)
    ensures forall v :: v in BookOf(path).open ==> IsOpen(Last(path).db, Last(path).agent, v)
  {
    hide Course, IsOver, BookOf, SystemOk, OnTrack;
    WholeCourseStands(start, scaffold, r, world, path);
  }

  /** While the run is the loop's it is there, in its project, with an active attempt. */
  lemma RunIsThere(start: Db, scaffold: seq<Snapshot>, r: Id, world: World, path: seq<Moment>)
    requires Course(start, scaffold, r, world, path) && Last(path).agent.Live()
    ensures r < |start.runs| && r < |Last(path).db.runs| && Last(path).db.runs[r].project == start.runs[r].project
    ensures Grows(start, Last(path).db) && Last(path).db.runs[r].activeAttempt.Some?
  {
    hide Course, VersionOk, BookOf, Grows;
    CourseIsSafe(start, scaffold, r, world, path);
    CourseTracks(start, scaffold, r, world, path);
    assert RunOk(Last(path).db.runs[r]);
  }

  /** The course goes on by one move. */
  ghost predicate GoesBy(p: seq<Moment>, q: seq<Moment>, move: Move) {
    p != [] && |q| == |p| + 1 && p <= q && Last(q).move == move
  }

  /** The course goes on by one more store call. */
  ghost predicate CalledOnce(start: Db, scaffold: seq<Snapshot>, r: Id, world: World, p: seq<Moment>, q: seq<Moment>,
                             move: Move)
  {
    Course(start, scaffold, r, world, q) && GoesBy(p, q, move) &&
    BookOf(q).calls == BookOf(p).calls + 1 && BookOf(q).heard == BookOf(p).heard
  }

  ghost predicate Responds(world: World, path: seq<Moment>, lost: bool, now: Time) {
    world.store(BookOf(path).calls) == Response(!lost, now)
  }

  lemma Boots(start: Db, scaffold: seq<Snapshot>, r: Id, world: World, path: seq<Moment>, attempt: Id, i: Id)
      returns (q: seq<Moment>)
    requires Course(start, scaffold, r, world, path) && Last(path).agent.Booting?
    requires r < |Last(path).db.runs| && Last(path).db.runs[r].activeAttempt == Some(attempt)
    requires i < |Last(path).db.iterations| && Last(path).db.iterations[i].run == Some(r)
    ensures Course(start, scaffold, r, world, q) && GoesBy(path, q, Own(Boot(attempt, i), false, 0))
    ensures SameWork(BookOf(path).(booted := true), BookOf(q))
    ensures BookOf(q).calls == BookOf(path).calls && BookOf(q).heard == BookOf(path).heard
    ensures Last(q).db == Last(path).db && Last(q).agent == Working(r, attempt, i, None)
  {
    hide Perform, Gate.Passes, Course, SystemOk;
    CourseIsSafe(start, scaffold, r, world, path);
    Moves(start, scaffold, r, world, path, Boot(attempt, i), false, 0);
    q := path + [MomentOf(scaffold, Last(path), Boot(attempt, i), false, 0)];
  }

  lemma Emits(start: Db, scaffold: seq<Snapshot>, r: Id, world: World, path: seq<Moment>, kind: EventKind, lost: bool, now: Time)
      returns (q: seq<Moment>)
    requires Course(start, scaffold, r, world, path) && Last(path).agent.Working? && Responds(world, path, lost, now)
    requires !IsTerminal(kind) && Harmless(kind, BookOf(path).done)
    ensures CalledOnce(start, scaffold, r, world, path, q, Own(Emit(kind), lost, now)) && Keeps(path, q)
    ensures if lost then Last(q).db == Last(path).db else AppendEvent(Last(path).db, r, kind, now) == Ok(Last(q).db)
  {
    var x := Last(path);
    CourseIsSafe(start, scaffold, r, world, path);
    var d := Emitted(x.db, x.agent, scaffold, kind, now);
    Moves(start, scaffold, r, world, path, Emit(kind), lost, now);
    q := path + [MomentOf(scaffold, x, Emit(kind), lost, now)];
  }

  lemma RecordMoment(scaffold: seq<Snapshot>, x: Moment, s: Stage, ref: string, lost: bool, now: Time)
    requires x.agent.Working?
    ensures var y := MomentOf(scaffold, x, Record(s, ref), lost, now);
            y.agent == x.agent && y.db == Unless(lost, x.db, RecordArtifact(x.db, x.agent.run, x.agent.attempt, s, ref, now))
  {
    hide AppendEvent, RecordArtifact, Promote, FailDraft, BeginAttempt;
  }

  lemma Records(start: Db, scaffold: seq<Snapshot>, r: Id, world: World, path: seq<Moment>, s: Stage, ref: string,
                lost: bool, now: Time)
      returns (q: seq<Moment>)
    requires Course(start, scaffold, r, world, path) && Last(path).agent.Working? && Responds(world, path, lost, now)
    ensures CalledOnce(start, scaffold, r, world, path, q, Own(Record(s, ref), lost, now))
    ensures MoreDone(BookOf(path), BookOf(q), s) && Last(q).agent == Last(path).agent
    ensures if lost then Last(q).db == Last(path).db
            else RecordArtifact(Last(path).db, r, Last(path).agent.attempt, s, ref, now) == Ok(Last(q).db)
  {
    var x := Last(path);
    CourseIsSafe(start, scaffold, r, world, path);
    var d := Recorded(x.db, x.agent, scaffold, s, ref, now);
    Moves(start, scaffold, r, world, path, Record(s, ref), lost, now);
    RecordMoment(scaffold, x, s, ref, lost, now);
    q := path + [MomentOf(scaffold, x, Record(s, ref), lost, now)];
  }

  lemma BeginMoment(scaffold: seq<Snapshot>, x: Moment, lost: bool, now: Time)
    requires x.agent.Working?
    ensures var y := MomentOf(scaffold, x, Begin, lost, now);
            y.agent == x.agent && y.db == Unless(lost, x.db, BeginAttempt(x.db, x.agent.run, x.agent.attempt, now))
  {
    hide ApplyEvent;
  }

  lemma Begins(start: Db, scaffold: seq<Snapshot>, r: Id, world: World, path: seq<Moment>, lost: bool, now: Time)
      returns (q: seq<Moment>)
    requires Course(start, scaffold, r, world, path) && Last(path).agent.Working? && Responds(world, path, lost, now)
    ensures CalledOnce(start, scaffold, r, world, path, q, Own(Begin, lost, now))
    ensures MoreTrouble(BookOf(path), BookOf(q), lost) && Last(q).agent == Last(path).agent
    ensures if lost then Last(q).db == Last(path).db
            else BeginAttempt(Last(path).db, r, Last(path).agent.attempt, now) == Ok(Last(q).db)
  {
    var x := Last(path);
    CourseIsSafe(start, scaffold, r, world, path);
    var d := Begun(x.db, x.agent, scaffold, now);
    Moves(start, scaffold, r, world, path, Begin, lost, now);
    BeginMoment(scaffold, x, lost, now);
    q := path + [MomentOf(scaffold, x, Begin, lost, now)];
  }

  lemma WriteGoes(start: Db, db: Db, a: Agent, scaffold: seq<Snapshot>, open: set<Id>, content: string) returns (d: Db)
    requires SystemOk(Alone(db, a, scaffold)) && a.Working? && OnTrack(start, db, a.run, open)
    ensures CreateDraft(db, start.runs[a.run].project, a.iteration, BuildFiles(scaffold, content)) == Ok((d, |db.versions|))
    ensures |db.versions| !in open && a.run < |db.runs| && db.runs[a.run].project == start.runs[a.run].project
  {
    hide SystemOk, Grows, CreateDraft;
    d := Written(start, db, a, scaffold, open, content);
  }

  lemma WriteMoment(start: Db, scaffold: seq<Snapshot>, x: Moment, content: string, lost: bool, now: Time, d: Db)
    requires x.agent.Working? && x.agent.run < |start.runs| && x.agent.run < |x.db.runs|
    requires x.db.runs[x.agent.run].project == start.runs[x.agent.run].project
    requires CreateDraft(x.db, start.runs[x.agent.run].project, x.agent.iteration, BuildFiles(scaffold, content)) ==
             Ok((d, |x.db.versions|))
    ensures var y := MomentOf(scaffold, x, Write(content), lost, now);
            y.db == (if lost then x.db else d) &&
            y.agent == if lost then x.agent else x.agent.(draft := Some(Draft(|x.db.versions|, content)))
  {
  }

  lemma Writes(start: Db, scaffold: seq<Snapshot>, r: Id, world: World, path: seq<Moment>, content: string, lost: bool, now: Time)
      returns (q: seq<Moment>)
    requires Course(start, scaffold, r, world, path) && Last(path).agent.Working? && Responds(world, path, lost, now)
    ensures r < |start.runs| && |Last(path).db.versions| !in BookOf(path).open
    ensures DraftOf(Last(path).agent).Some? ==> DraftOf(Last(path).agent).value in BookOf(path).open
    ensures CalledOnce(start, scaffold, r, world, path, q, Own(Write(content), lost, now))
    ensures var v := |Last(path).db.versions|;
            MoreWritten(BookOf(path), BookOf(q), content, if lost then None else Some(v)) &&
            if lost then Last(q).db == Last(path).db && Last(q).agent == Last(path).agent
            else
              CreateDraft(Last(path).db, start.runs[r].project, Last(path).agent.iteration, BuildFiles(scaffold, content)) ==
                Ok((Last(q).db, v)) &&
              Last(q).agent == Last(path).agent.(draft := Some(Draft(v, content)))
  {
    hide Gate.Passes, Inv;
    var x := Last(path);
    CourseIsSafe(start, scaffold, r, world, path);
    CourseTracks(start, scaffold, r, world, path);
    var d := WriteGoes(start, x.db, x.agent, scaffold, BookOf(path).open, content);
    Moves(start, scaffold, r, world, path, Write(content), lost, now);
    WriteMoment(start, scaffold, x, content, lost, now, d);
    q := path + [MomentOf(scaffold, x, Write(content), lost, now)];
  }

  lemma SupersedeGoes(start: Db, db: Db, a: Agent, scaffold: seq<Snapshot>, open: set<Id>, v: Id, now: Time)
    requires SystemOk(Alone(db, a, scaffold)) && a.Working? && OnTrack(start, db, a.run, open)
    requires v in open && v < |db.versions| && db.versions[v].iteration == a.iteration
    ensures FailDraft(db, v, None, now).Ok?
  {
    hide *;
    var d := Superseded(start, db, a, scaffold, open, v, now);
  }

  lemma SupersedeMoment(scaffold: seq<Snapshot>, x: Moment, v: Id, lost: bool, now: Time)
    ensures var y := MomentOf(scaffold, x, Supersede(v), lost, now);
            y.agent == x.agent && y.db == Unless(lost, x.db, TablesOf(FailDraft(x.db, v, None, now)))
  {
    hide AppendEvent, RecordArtifact;
  }

  lemma Supersedes(start: Db, scaffold: seq<Snapshot>, r: Id, world: World, path: seq<Moment>, v: Id, lost: bool, now: Time)
      returns (q: seq<Moment>)
    requires Course(start, scaffold, r, world, path) && Last(path).agent.Working? && Responds(world, path, lost, now)
    requires v in BookOf(path).open && DraftOf(Last(path).agent).Some? && DraftOf(Last(path).agent).value != v
    ensures CalledOnce(start, scaffold, r, world, path, q, Own(Supersede(v), lost, now))
    ensures LessOpen(BookOf(path), BookOf(q), v, lost) && Last(q).agent == Last(path).agent
    ensures if lost then Last(q).db == Last(path).db
            else TablesOf(FailDraft(Last(path).db, v, None, now)) == Ok(Last(q).db)
  {
    var x := Last(path);
    CourseIsSafe(start, scaffold, r, world, path);
    CourseTracks(start, scaffold, r, world, path);
    assert IsOpen(x.db, x.agent, v);
    SupersedeGoes(start, x.db, x.agent, scaffold, BookOf(path).open, v, now);
    Moves(start, scaffold, r, world, path, Supersede(v), lost, now);
    SupersedeMoment(scaffold, x, v, lost, now);
    q := path + [MomentOf(scaffold, x, Supersede(v), lost, now)];
  }

  lemma Speaks(start: Db, scaffold: seq<Snapshot>, r: Id, world: World, path: seq<Moment>, kind: EventKind, lost: bool, now: Time)
      returns (q: seq<Moment>)
    requires Course(start, scaffold, r, world, path) && Last(path).agent.Ending? && Responds(world, path, lost, now)
    requires !BookOf(path).spoken && (IsTerminal(kind) ==> kind.RunCompleted? == BookOf(path).accepted)
    ensures CalledOnce(start, scaffold, r, world, path, q, Own(LastWords(kind), lost, now)) && SameResult(BookOf(path), BookOf(q))
    ensures BookOf(q).accepted == BookOf(path).accepted && BookOf(q).spoken == IsTerminal(kind)
    ensures Last(q).agent == Last(path).agent
    ensures if lost then Last(q).db == Last(path).db else AppendEvent(Last(path).db, r, kind, now) == Ok(Last(q).db)
  {
    var x := Last(path);
    CourseIsSafe(start, scaffold, r, world, path);
    var d := Spoken(x.db, x.agent, scaffold, kind, now);
    Moves(start, scaffold, r, world, path, LastWords(kind), lost, now);
    q := path + [MomentOf(scaffold, x, LastWords(kind), lost, now)];
  }

  /* ---- The end of the run ---- */

  lemma AbandonMoment(scaffold: seq<Snapshot>, x: Moment, lost: bool, now: Time)
    ensures var y := MomentOf(scaffold, x, Abandon, lost, now);
            y.agent == Ending(x.agent.run) && y.db == Unless(lost, x.db, FailRun(x.db, x.agent.run, now))
  {
    hide AppendEvent, RecordArtifact;
  }

  lemma RejectMoment(scaffold: seq<Snapshot>, x: Moment, lost: bool, now: Time)
    requires x.agent.Working? && x.agent.draft.Some?
    ensures var y := MomentOf(scaffold, x, Reject, lost, now);
            var res := FailDraft(x.db, x.agent.draft.value.version, Some((x.agent.run, x.agent.attempt)), now);
            y.agent == Ending(x.agent.run) && y.db == Unless(lost, x.db, TablesOf(res))
  {
    hide ApplyEvent;
  }

  lemma AcceptMoment(scaffold: seq<Snapshot>, x: Moment, lost: bool, now: Time)
    requires x.agent.Working? && x.agent.draft.Some?
    ensures var y := MomentOf(scaffold, x, Accept, lost, now);
            var res := Promote(x.db, x.agent.draft.value.version, Some((x.agent.run, x.agent.attempt)), now);
            y.agent == (if !lost && res.Ok? then Ending(x.agent.run) else x.agent) &&
            y.db == Unless(lost, x.db, TablesOf(res))
  {
    hide AppendEvent;
  }

  lemma Abandons(start: Db, scaffold: seq<Snapshot>, r: Id, world: World, path: seq<Moment>, lost: bool, now: Time)
      returns (q: seq<Moment>)
    requires Course(start, scaffold, r, world, path) && Last(path).agent.Live() && Responds(world, path, lost, now)
    requires BookOf(path).lost || BookOf(path).open == {}
    ensures CalledOnce(start, scaffold, r, world, path, q, Own(Abandon, lost, now)) && Last(q).agent == Ending(r)
    ensures !BookOf(q).accepted && !BookOf(q).spoken && SameResult(BookOf(path), BookOf(q))
    ensures if lost then Last(q).db == Last(path).db else FailRun(Last(path).db, r, now) == Ok(Last(q).db)
  {
    hide Course, Inv, Grows;
    var x := Last(path);
    CourseIsSafe(start, scaffold, r, world, path);
    CourseTracks(start, scaffold, r, world, path);
    FailRunKeeps(x.db, ReadOnly(scaffold), r, now);
    Moves(start, scaffold, r, world, path, Abandon, lost, now);
    AbandonMoment(scaffold, x, lost, now);
    EndEntered(BookOf(path), x, Ending(r), Abandon, lost, |path|);
    q := path + [MomentOf(scaffold, x, Abandon, lost, now)];
  }

  lemma RejectGoes(start: Db, db: Db, a: Agent, scaffold: seq<Snapshot>, open: set<Id>, now: Time)
    requires SystemOk(Alone(db, a, scaffold)) && a.Working? && OnTrack(start, db, a.run, open)
    requires a.draft.Some? && a.draft.value.version in open
    ensures FailDraft(db, a.draft.value.version, Some((a.run, a.attempt)), now).Ok?
  {
    hide *;
    var d := Rejected(start, db, a, scaffold, open, now);
  }

  lemma Rejects(start: Db, scaffold: seq<Snapshot>, r: Id, world: World, path: seq<Moment>, v: Id, lost: bool, now: Time)
      returns (q: seq<Moment>)
    requires Course(start, scaffold, r, world, path) && Last(path).agent.Working? && Responds(world, path, lost, now)
    requires DraftOf(Last(path).agent) == Some(v) && (BookOf(path).lost || BookOf(path).open == {v})
    ensures CalledOnce(start, scaffold, r, world, path, q, Own(Reject, lost, now)) && Last(q).agent == Ending(r)
    ensures !BookOf(q).accepted && !BookOf(q).spoken && SameResult(BookOf(path), BookOf(q))
    ensures if lost then Last(q).db == Last(path).db
            else TablesOf(FailDraft(Last(path).db, v, Some((r, Last(path).agent.attempt)), now)) == Ok(Last(q).db)
  {
    var x := Last(path);
    CourseIsSafe(start, scaffold, r, world, path);
    CourseTracks(start, scaffold, r, world, path);
    RejectGoes(start, x.db, x.agent, scaffold, BookOf(path).open, now);
    Moves(start, scaffold, r, world, path, Reject, lost, now);
    RejectMoment(scaffold, x, lost, now);
    EndEntered(BookOf(path), x, Ending(r), Reject, lost, |path|);
    q := path + [MomentOf(scaffold, x, Reject, lost, now)];
  }

  lemma AcceptGoes(start: Db, db: Db, a: Agent, scaffold: seq<Snapshot>, open: set<Id>, now: Time)
    requires SystemOk(Alone(db, a, scaffold)) && a.Working? && OnTrack(start, db, a.run, open)
    requires a.draft.Some? && a.draft.value.version in open && LastMade(db, a.draft.value.version, a.run)
    requires Gate.Passes(a.draft.value.content)
    ensures var res := Promote(db, a.draft.value.version, Some((a.run, a.attempt)), now);
            (res.Ok? <==> !BaseMoved(start, db, a)) && (res.Ok? ==> !BaseMoved(start, res.value.0, a))
  {
    hide Gate.Passes, SystemOk, Promote, Concluded, OnTrack;
    Accepted(start, db, a, scaffold, open, now);
    PromoteKeepsBase(db, a.draft.value.version, Some((a.run, a.attempt)), now, a.iteration);
  }

  lemma PromoteKeepsBase(db: Db, v: Id, owner: Option<(Id, Id)>, now: Time, i: Id)
    ensures var res := Promote(db, v, owner, now);
            res.Ok? ==>
              |res.value.0.iterations| == |db.iterations| &&
              (i < |db.iterations| ==> res.value.0.iterations[i].base == db.iterations[i].base)
  {
  }

  lemma AcceptOutcome(start: Db, scaffold: seq<Snapshot>, x: Moment, open: set<Id>, lost: bool, now: Time)
    requires SystemOk(Alone(x.db, x.agent, scaffold)) && x.agent.Working? && OnTrack(start, x.db, x.agent.run, open)
    requires x.agent.draft.Some? && x.agent.draft.value.version in open
    requires LastMade(x.db, x.agent.draft.value.version, x.agent.run) && Gate.Passes(x.agent.draft.value.content)
    ensures var y := MomentOf(scaffold, x, Accept, lost, now);
            var res := Promote(x.db, x.agent.draft.value.version, Some((x.agent.run, x.agent.attempt)), now);
            (y.agent.Ending? <==> !lost && !BaseMoved(start, y.db, x.agent)) &&
            if y.agent.Ending? then y.agent == Ending(x.agent.run) && TablesOf(res) == Ok(y.db)
            else y.agent == x.agent && y.db == x.db && (lost || res.Err?)
  {
    hide MomentOf, Gate.Passes, SystemOk, Promote, OnTrack;
    AcceptMoment(scaffold, x, lost, now);
    AcceptGoes(start, x.db, x.agent, scaffold, open, now);
  }

  /** A promotion that goes through ends the run; one that is lost, or refused because the
      stable version has moved, leaves the loop in trouble. */
  lemma Accepts(start: Db, scaffold: seq<Snapshot>, r: Id, world: World, path: seq<Moment>, v: Id, lost: bool, now: Time)
      returns (q: seq<Moment>)
    requires Course(start, scaffold, r, world, path) && Last(path).agent.Working? && Responds(world, path, lost, now)
    requires DraftOf(Last(path).agent) == Some(v) && Gate.Passes(Last(path).agent.draft.value.content)
    requires BookOf(path).done == ALL_STAGES && (BookOf(path).lost || BookOf(path).open == {v})
    ensures CalledOnce(start, scaffold, r, world, path, q, Own(Accept, lost, now)) && !BookOf(q).spoken
    ensures Last(q).agent.Ending? <==> !lost && !BaseMoved(start, Last(q).db, Last(path).agent)
    ensures var res := Promote(Last(path).db, v, Some((r, Last(path).agent.attempt)), now);
            if Last(q).agent.Ending? then
              TablesOf(res) == Ok(Last(q).db) && Last(q).agent == Ending(r) && BookOf(q).accepted &&
              SameResult(BookOf(path), BookOf(q))
            else
              Last(q).db == Last(path).db && (lost || res.Err?) && Last(q).agent == Last(path).agent &&
              MoreTrouble(BookOf(path), BookOf(q), true)
  {
    var x := Last(path);
    CourseIsSafe(start, scaffold, r, world, path);
    CourseTracks(start, scaffold, r, world, path);
    Moves(start, scaffold, r, world, path, Accept, lost, now);
    AcceptOutcome(start, scaffold, x, BookOf(path).open, lost, now);
    AcceptEntered(BookOf(path), x, MomentOf(scaffold, x, Accept, lost, now).agent, lost, |path|);
    q := path + [MomentOf(scaffold, x, Accept, lost, now)];
  }
}
