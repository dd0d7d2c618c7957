/** The agent loop (internal/agent/agent.go) in a world that may answer anything and lose any
    write, with everybody else acting between any two of its store calls. */
module AgentLoop {
  import opened Prelude
  import opened Tables
  import opened Workflows
  import opened Operations
  import opened Invariant
  import opened Systems
  import opened SystemSafety
  import opened Interference
  import opened Stores
  import opened Snapshots
  import opened AgentModel
  import opened AgentPaths
  import opened AgentStages
  import opened AgentBooks
  import opened AgentMoves
  import opened AgentSteps
  import opened AgentTurns
  import opened AgentScript
  import opened AgentWords
  import Gate

  /** The text an artifact refers to a draft or a verdict by. */
  method Reference() returns (ref: string) { ref := *; }

  method ClassifyError() returns (code: string)
    ensures code in ["TIMEOUT", "RATE_LIMITED", "UPSTREAM_ERROR", "INTERNAL"]
  {
    code := "INTERNAL";
    if * { code := "TIMEOUT"; }
    if * { code := "RATE_LIMITED"; }
    if * { code := "UPSTREAM_ERROR"; }
  }

  /** What other agents and clients do meanwhile: anything Interference allows them. */
  method Meanwhile(store: Store, ghost agent: Agent, ghost ro: FileSet)
    requires Inv(store.db, ro) && AgentOk(store.db, agent)
    modifies store
    ensures Tolerable(old(store.db), store.db, agent, ro)
  {
    hide VersionOk, Grows, RunOk, Untouched;
    GrowsReflexive(store.db);
    if agent.Live() {
      UndisturbedReflexive(store.db, agent.run);
    }
  }

  /** The iteration created first for a run. */
  function IterationOfRun(its: seq<Iteration>, r: Id): (i: Option<Id>)
    ensures i.Some? ==> i.value < |its| && its[i.value].run == Some(r)
    ensures i.None? ==> forall k :: 0 <= k < |its| ==> its[k].run != Some(r)
  {
    if its == [] then None
    else
      var last := |its| - 1;
      var earlier := IterationOfRun(its[..last], r);
      if earlier.Some? then earlier else if its[last].run == Some(r) then Some(last) else None
  }

  /** The stages done before the gate's verdict; the engineer's counts once its artifact is
      recorded. */
  function DoneBeforeQa(engineerRecorded: bool): set<Stage> {
    if engineerRecorded then {Pm, Architect, Stage.Engineer} else {Pm, Architect}
  }

  /** Nothing has been done yet, but perhaps the run was loaded. */
  predicate IsNew(g: Book) { g.open == {} && g.done == {} && g.written == [] && !g.troubled }

  /** The engineer's turn from answer `k` on has been taken. */
  ghost predicate TookTurn(model: nat -> Answer, k: nat, g: Book, h: Book) {
    h.booted == g.booted && h.written == g.written + if TurnFails(model, k) then [] else [TurnContent(model, k)]
  }

  class Runner {
    const store: Store
    const scaffold: seq<Snapshot>
    const runID: Id
    const world: World
    var asks: nat   // answers of the model so far
    var calls: nat  // writes to the store so far
    var projectID: Id
    var iterationID: Id
    var attemptID: Id
    var stage: Option<Stage>
    var currentDraft: Option<Id>

    ghost const start: Db          // the store when the loop was started
    ghost var path: seq<Moment>    // what has happened since

    /** The path is a course of the loop in its world, up to the store as it is. */
    ghost predicate OnPath()
      reads `path, `asks, `calls, store
    {
      Course(start, scaffold, runID, world, path) && Last(path).db == store.db &&
      asks == BookOf(path).heard && calls == BookOf(path).calls
    }

    /** The loop as the system sees it. */
    ghost function Me(): Agent
      reads `path
    {
      Last(path).agent
    }

    ghost function Entries(): Book
      reads `path
    {
      BookOf(path)
    }

    /** The events the loop has tried to persist. */
    ghost function Words(): seq<EventKind>
      reads `path
    {
      WordsOf(path)
    }

    /** The run is the loop's. */
    ghost predicate Going()
      reads `path, `asks, `calls, `projectID, `iterationID, `attemptID, store
    {
      OnPath() && Me().Live() &&
      (Me().Working? ==>
        Me().attempt == attemptID && Me().iteration == iterationID &&
        runID < |start.runs| && projectID == start.runs[runID].project)
    }

    /** The loop's draft is the agent's, and unless a write was lost it is the only open one. */
    ghost predicate Aligned()
      reads `path, `currentDraft
    {
      currentDraft == DraftOf(Me()) && (!Entries().lost ==> Entries().open == OnlyCurrent(currentDraft))
    }

    /** The newest draft has the content. */
    ghost predicate HasDraft(content: string)
      reads `path
    {
      Me().Working? && Me().draft.Some? && Me().draft.value.content == content
    }

    /** It is the engineer's turn, or the gate's, and nothing has gone wrong. */
    ghost predicate Ready(engineerRecorded: bool)
      reads `path, `asks, `calls, `currentDraft, `projectID, `iterationID, `attemptID, store
    {
      Going() && Aligned() && Me().Working? && !Entries().troubled && Entries().done == DoneBeforeQa(engineerRecorded)
    }

    /** The run has been ended, or the write that should have ended it was lost. */
    ghost predicate Over(success: bool)
      reads `path, `asks, `calls, store
    {
      OnPath() && Me().Ending? && Entries().accepted == success && !Entries().spoken
    }

    /** The loop has tried its last word, the terminal event that tells the outcome. */
    ghost predicate Finished(success: bool)
      reads `path, `asks, `calls, store
    {
      OnPath() && Me().Ending? && Entries().accepted == success && Entries().spoken &&
      Last(path).move.Own? && Last(path).move.action.LastWords? && IsTerminal(Last(path).move.action.kind) &&
      Last(path).move.action.kind.RunCompleted? == success
    }

    /** The loop has not begun. */
    ghost predicate IsFresh()
      reads `path, `asks, `calls, `currentDraft, `projectID, `iterationID, `attemptID, store
    {
      Going() && Aligned() && Me() == Booting(runID) && IsNew(Entries()) && !Entries().booted && asks == 0 && Words() == []
    }

    constructor (store: Store, scaffold: seq<Snapshot>, runID: Id, world: World)
      requires SystemOk(Alone(store.db, Booting(runID), scaffold))
      ensures this.store == store && this.scaffold == scaffold && this.runID == runID && this.world == world
      ensures start == store.db && path == [Moment(start, Booting(runID), Others)]
      ensures IsFresh()
    {
      this.store, this.scaffold, this.runID, this.world := store, scaffold, runID, world;
      asks, calls := 0, 0;
      projectID, iterationID, attemptID, stage, currentDraft := 0, 0, 0, None, None;
      start := store.db;
      path := [Moment(store.db, Booting(runID), Others)];
      CourseStarts(store.db, scaffold, runID, world);
    }

    /** Lets others act. */
    method Pause()
      requires OnPath()
      modifies `path, store
      ensures OnPath() && Me() == old(Me()) && SameWork(old(Entries()), Entries()) && SameEnd(old(Entries()), Entries())
      ensures Grows(old(store.db), store.db) && Words() == old(Words())
    {
      hide Course, Inv, BookOf, Undisturbed, Grows;
      CourseIsSafe(start, scaffold, runID, world, path);
      Meanwhile(store, Last(path).agent, ReadOnly(scaffold));
      AgentSteps.Waits(start, scaffold, runID, world, path, store.db);
      WordsExtend(path, Moment(store.db, Last(path).agent, Others));
      path := path + [Moment(store.db, Last(path).agent, Others)];
    }

    /** Lets others act until the store responds. */
    method Await() returns (w: Response)
      requires OnPath()
      modifies `path, store
      ensures OnPath() && Me() == old(Me()) && SameWork(old(Entries()), Entries()) && SameEnd(old(Entries()), Entries())
      ensures w == world.store(calls) && Words() == old(Words())
      ensures unchanged(`asks, `calls, `currentDraft, `projectID, `iterationID, `attemptID)
    {
      hide *;
      Pause();
      w := world.store(calls);
    }

    /** The last move was this action's store call, which the store took or not as the world
        has it. */
    ghost predicate Did(action: Action)
      reads `path, `calls
    {
      path != [] && calls > 0 &&
      Last(path).move == Own(action, !world.store(calls - 1).up, world.store(calls - 1).now)
    }

    /** Enters a store call: `q` is the path it leads to. */
    method Enter(ghost q: seq<Moment>, ghost action: Action)
      requires Course(start, scaffold, runID, world, q) && Last(q).db == store.db
      requires BookOf(q).heard == asks && BookOf(q).calls == calls + 1
      requires GoesBy(path, q, Own(action, !world.store(calls).up, world.store(calls).now))
      modifies `path, `calls
      ensures path == q && OnPath() && Me() == Last(q).agent
      ensures calls == old(calls) + 1 && Did(action) && Words() == Then(old(Words()), action)
      ensures unchanged(`asks, `currentDraft, `projectID, `iterationID, `attemptID)
    {
      hide Course, BookOf;
      WordsGrow(path, q);
      path, calls := q, calls + 1;
    }

    /* ---- Store calls ---- */

    /** Persists an event; a lost one is only logged. */
    method Emit(kind: EventKind)
      requires Going() && Aligned() && Me().Working? && !IsTerminal(kind) && Harmless(kind, Entries().done)
      modifies `path, `calls, store
      ensures asks == old(asks) && calls == old(calls) + 1 && Did(Action.Emit(kind))
      ensures Words() == Then(old(Words()), Action.Emit(kind))
      ensures Going() && Aligned() && Me() == old(Me()) && SameWork(old(Entries()), Entries())
    {
      hide Course, AppendEvent, BookOf;
      var w := Await();
      ghost var q := Emits(start, scaffold, runID, world, path, kind, !w.up, w.now);
      if w.up {
        var _ := store.AppendEvent(runID, kind, w.now);
      }
      Enter(q, Action.Emit(kind));
    }

    /** Records a stage's artifact; a lost one is only logged. */
    method RecordStage(s: Stage, ref: string)
      requires Going() && Aligned() && Me().Working?
      modifies `path, `calls, store
      ensures calls == old(calls) + 1 && Did(Action.Record(s, ref)) && Words() == old(Words())
      ensures Going() && Aligned() && Me() == old(Me())
      ensures MoreDone(old(Entries()), Entries(), s)
    {
      hide Course, BookOf, Bump, SetStage;
      ghost var g := Entries();
      var w := Await();
      ghost var q := Records(start, scaffold, runID, world, path, s, ref, !w.up, w.now);
      if w.up {
        var _ := store.RecordStageArtifact(runID, attemptID, s, ref, w.now);
      }
      MoreDoneAfter(g, Entries(), BookOf(q), s);
      Enter(q, Action.Record(s, ref));
    }

    /** Marks attempt and run as running. */
    method BeginAttempt() returns (ok: bool)
      requires Going() && Aligned() && Me().Working?
      modifies `path, `calls, store
      ensures calls == old(calls) + 1 && Did(Action.Begin) && Words() == old(Words())
      ensures Going() && Aligned() && Me() == old(Me()) && ok == world.store(old(calls)).up
      ensures MoreTrouble(old(Entries()), Entries(), !ok)
    {
      hide Course, BookOf, Bump;
      ghost var g := Entries();
      var w := Await();
      ghost var q := Begins(start, scaffold, runID, world, path, !w.up, w.now);
      ok := w.up;
      if ok {
        var res := store.BeginAttempt(runID, attemptID, w.now);
        ok := res.Ok?;
      }
      MoreTroubleAfter(g, Entries(), BookOf(q), !ok);
      Enter(q, Action.Begin);
    }

    /** Stores a snapshot with the given content as a new draft. */
    method CreateDraft(content: string) returns (draft: Option<Id>)
      requires Going() && Aligned() && Me().Working?
      modifies `path, `calls, store
      ensures calls == old(calls) + 1 && Did(Write(content)) && Words() == old(Words())
      ensures Going() && Me().Working? && draft.Some? == world.store(old(calls)).up
      ensures MoreWritten(old(Entries()), Entries(), content, draft)
      ensures if draft.Some? then Drafts(old(Me()), old(Entries()), draft.value, content) else Me() == old(Me())
    {
      hide Course, BookOf;
      ghost var g := Entries();
      var w := Await();
      ghost var q := Writes(start, scaffold, runID, world, path, content, !w.up, w.now);
      draft := None;
      if w.up {
        var files := BuildFilesMap(scaffold, content);
        var res := store.CreateDraftVersion(projectID, iterationID, files);
        draft := Some(res.value);
      }
      MoreWrittenAfter(g, Entries(), BookOf(q), content, draft);
      Enter(q, Write(content));
    }

    /** The agent has a new draft, beside those that were open. */
    ghost predicate Drafts(a: Agent, g: Book, v: Id, content: string)
      reads `path
    {
      a.Working? && Me() == a.(draft := Some(Draft(v, content))) && v !in g.open &&
      (DraftOf(a).Some? ==> DraftOf(a).value in g.open)
    }

    /** Fails a draft that a newer one has replaced; a lost write leaves it open. */
    method Supersede(v: Id)
      requires Going() && Me().Working? && currentDraft == Some(v) && v in Entries().open
      requires DraftOf(Me()).Some? && DraftOf(Me()).value != v
      modifies `path, `calls, `currentDraft, store
      ensures calls == old(calls) + 1 && Did(Action.Supersede(v)) && Words() == old(Words())
      ensures Going() && currentDraft == None && Me() == old(Me())
      ensures LessOpen(old(Entries()), Entries(), v, !world.store(old(calls)).up)
    {
      hide Course, FailDraft, BookOf;
      ghost var g := Entries();
      var w := Await();
      ghost var q := Supersedes(start, scaffold, runID, world, path, v, !w.up, w.now);
      if w.up {
        var _ := store.FailDraftVersion(v, None, w.now);
      }
      LessOpenAfter(g, Entries(), BookOf(q), v, !w.up);
      Enter(q, Action.Supersede(v));
      currentDraft := None;
    }

    /** Promotes the draft that passed the gate and ends the run as succeeded; it does so
        exactly if the store is up and the stable version has not moved since the run was
        created. */
    method Promote() returns (ok: bool)
      requires Going() && Aligned() && Me().Working? && Me().draft.Some? && Gate.Passes(Me().draft.value.content)
      requires Entries().done == ALL_STAGES && !Entries().troubled
      modifies `path, `calls, store
      ensures calls == old(calls) + 1 && Did(Accept) && Words() == old(Words())
      ensures ok == (world.store(old(calls)).up && !BaseMoved(start, store.db, old(Me())))
      ensures if ok then Over(true) && SameResult(old(Entries()), Entries())
              else Going() && Aligned() && Me() == old(Me()) && MoreTrouble(old(Entries()), Entries(), true)
    {
      hide Course, Gate.Passes, BookOf;
      var v := currentDraft.value;
      ghost var g := Entries();
      var w := Await();
      ghost var q := Accepts(start, scaffold, runID, world, path, v, !w.up, w.now);
      ok := w.up;
      if ok {
        var res := store.PromoteDraftVersion(v, Some((runID, attemptID)), w.now);
        ok := res.Ok?;
      }
      if !ok {
        MoreTroubleAfter(g, Entries(), BookOf(q), true);
      }
      Enter(q, Accept);
    }

    /** Fails the draft and ends the run as failed. */
    method Reject()
      requires Going() && Aligned() && currentDraft.Some?
      modifies `path, `calls, store
      ensures calls == old(calls) + 1 && Did(Action.Reject) && Words() == old(Words())
      ensures Over(false) && SameResult(old(Entries()), Entries())
    {
      hide Course, FailDraft, BookOf;
      var v := currentDraft.value;
      var w := Await();
      ghost var q := Rejects(start, scaffold, runID, world, path, v, !w.up, w.now);
      if w.up {
        var _ := store.FailDraftVersion(v, Some((runID, attemptID)), w.now);
      }
      Enter(q, Action.Reject);
    }

    /** Ends the run as failed when there is no draft. */
    method Abandon()
      requires Going() && Aligned() && currentDraft == None
      modifies `path, `calls, store
      ensures calls == old(calls) + 1 && Did(Action.Abandon) && Words() == old(Words())
      ensures Over(false) && SameResult(old(Entries()), Entries())
    {
      hide Course, BookNext, FailRun;
      var w := Await();
      ghost var q := Abandons(start, scaffold, runID, world, path, !w.up, w.now);
      if w.up {
        var _ := store.FailRun(runID, w.now);
      }
      Enter(q, Action.Abandon);
    }

    /** Says how the run ended, or before that that there is a new preview; by now others may
        have retried the run. */
    method Say(kind: EventKind, ghost success: bool)
      requires Over(success) && (IsTerminal(kind) ==> kind.RunCompleted? == success)
      modifies `path, `calls, store
      ensures calls == old(calls) + 1 && Did(LastWords(kind)) && Words() == Then(old(Words()), LastWords(kind))
      ensures if IsTerminal(kind) then Finished(success) else Over(success)
      ensures SameResult(old(Entries()), Entries())
    {
      hide Course, AppendEvent, BookOf;
      var w := Await();
      ghost var q := Speaks(start, scaffold, runID, world, path, kind, !w.up, w.now);
      if w.up {
        var _ := store.AppendEvent(runID, kind, w.now);
      }
      Enter(q, LastWords(kind));
    }

    /* ---- Turns ---- */

    /** The model's next answer. */
    method AskModel() returns (a: Answer)
      requires Going() && Aligned()
      modifies `path, `asks
      ensures Words() == old(Words())
      ensures Going() && Aligned() && Me() == old(Me()) && SameWork(old(Entries()), Entries())
      ensures asks == old(asks) + 1 && a == world.model(old(asks))
    {
      hide Course, BookOf;
      a := world.model(asks);
      Hears(start, scaffold, runID, world, path, a);
      WordsExtend(path, Moment(Last(path).db, Last(path).agent, Heard(a)));
      path, asks := path + [Moment(Last(path).db, Last(path).agent, Heard(a))], asks + 1;
    }

    /** One streamed answer; its chunks are emitted as they come. */
    method Stream() returns (a: Answer)
      requires Going() && Aligned() && Me().Working?
      modifies `path, `asks, `calls, store
      ensures Words() == old(Words()) + Deltas(a.chunks)
      ensures Going() && Aligned() && Me() == old(Me()) && SameWork(old(Entries()), Entries())
      ensures asks == old(asks) + 1 && a == world.model(old(asks))
    {
      hide Going, Entries;
      a := AskModel();
      ghost var words := Words();
      for k := 0 to a.chunks
        invariant Going() && Aligned() && Me() == old(Me()) && SameWork(old(Entries()), Entries())
        invariant asks == old(asks) + 1 && Words() == words + Deltas(k)
      {
        DeltasNext(words, k);
        Emit(MessageDelta);
      }
    }

    /** `n` answers into the turn from answer `k` on, which `a` began with book `g` and these
        words. */
    ghost predicate InTurn(a: Agent, g: Book, words: seq<EventKind>, k: nat, n: nat)
      reads `path, `asks, `calls, `currentDraft, `projectID, `iterationID, `attemptID, store
    {
      Going() && Aligned() && Me() == a && SameWork(g, Entries()) && asks == k + n &&
      Words() == words + Streamed(world.model, k, n)
    }

    /** Answer `n` of the turn; `more` if the model is owed an answer. */
    method ToolRound(content: string, ghost a: Agent, ghost g: Book, ghost words: seq<EventKind>, ghost k: nat, ghost n: nat)
        returns (ok: bool, more: bool, content': string)
      requires InTurn(a, g, words, k, n) && a.Working? && TurnSoFar(world.model, k, n, true, true, content)
      modifies `path, `asks, `calls, store
      ensures InTurn(a, g, words, k, n + 1) && TurnSoFar(world.model, k, n + 1, more, ok, content') && (more ==> ok)
      ensures ok ==> IsWritten(world.model, k, n + 1, content')
    {
      hide IsWritten, Course, Aligned, Going;
      StreamedNext(words, world.model, k, n);
      var answer := Stream();
      ok, more, content' := Execute(answer, content, world.model, k, n);
      TurnWritesLast(world.model, k, n + 1);
    }

    /** The engineer's turn: the model may call its tool in up to eight rounds, and the
        last accepted write counts. */
    method EngineerTurn() returns (ok: bool, content: string)
      requires Going() && Aligned() && Me().Working?
      modifies `path, `asks, `calls, store
      ensures Words() == old(Words()) + TurnWords(world.model, old(asks))
      ensures Going() && Aligned() && Me() == old(Me()) && SameWork(old(Entries()), Entries())
      ensures asks == TurnEnd(world.model, old(asks)) && ok == !TurnFails(world.model, old(asks))
      ensures ok ==> content == TurnContent(world.model, old(asks)) &&
                     IsWritten(world.model, old(asks), asks - old(asks), content)
    {
      hide IsWritten, TurnContent, TurnFails, Course, SameWork, Aligned, Going;
      var n, more;
      ok, content, n, more := ToolRounds();
      TurnIsOver(world.model, old(asks), n, more, ok, content);
      TurnIsWritten(world.model, old(asks));
    }

    method ToolRounds() returns (ok: bool, content: string, round: nat, more: bool)
      requires Going() && Aligned() && Me().Working?
      modifies `path, `asks, `calls, store
      ensures InTurn(old(Me()), old(Entries()), old(Words()), old(asks), round)
      ensures TurnSoFar(world.model, old(asks), round, more, ok, content)
      ensures 0 < round <= MAX_TOOL_ROUNDS && (round == MAX_TOOL_ROUNDS || !more)
    {
      hide IsWritten, Course, Aligned, Going;
      ok, content, round, more := true, "", 0, true;
      ghost var k, a, g, words := asks, Me(), Entries(), Words();
      TurnBegins(world.model, k);
      StreamedNone(words, world.model, k);
      while round < MAX_TOOL_ROUNDS && more
        invariant InTurn(a, g, words, k, round) && TurnSoFar(world.model, k, round, more, ok, content)
        invariant round <= MAX_TOOL_ROUNDS && (round == 0 ==> more) && (more ==> ok)
      {
        ok, more, content := ToolRound(content, a, g, words, k, round);
        round := round + 1;
      }
    }

    /** A stage begins. */
    method StartStage(s: Stage)
      requires Going() && Aligned() && Me().Working? && s !in Entries().done
      modifies `path, `calls, `stage, store
      ensures Going() && Aligned() && Me() == old(Me()) && SameWork(old(Entries()), Entries())
      ensures asks == old(asks) && stage == Some(s) && Words() == Then(old(Words()), Action.Emit(StageStarted(s)))
    {
      hide Going, Entries, Did;
      stage := Some(s);
      Emit(StageStarted(s));
    }

    /** A stage in which the model answers with text. */
    method TextStage(s: Stage) returns (ok: bool)
      requires Going() && Aligned() && Me().Working? && s !in Entries().done
      modifies `path, `asks, `calls, `stage, store
      ensures Words() == old(Words()) + TextWords(world.model(old(asks)), s)
      ensures Going() && Aligned() && Me() == old(Me())
      ensures asks == old(asks) + 1 && ok == !world.model(old(asks)).Failure?
      ensures if ok then MoreDone(old(Entries()), Entries(), s) else SameWork(old(Entries()), Entries())
    {
      hide Going, Entries;
      TextSaid(Words(), world.model(asks), s);
      StartStage(s);
      var a := Stream();
      ok := !a.Failure?;
      if ok {
        RecordArtifact(s, a.text);
      }
    }

    method RecordArtifact(s: Stage, ref: string)
      requires Going() && Aligned() && Me().Working?
      modifies `path, `calls, store
      ensures Words() == old(Words()) + [StageArtifact(s)]
      ensures Going() && Aligned() && Me() == old(Me())
      ensures MoreDone(old(Entries()), Entries(), s)
    {
      hide Going, Entries, Did;
      RecordStage(s, ref);
      Emit(StageArtifact(s));
    }

    /* ---- Rounds ---- */

    /** Stores what the engineer wrote and retires the draft before it. */
    method WriteDraft(content: string) returns (ok: bool)
      requires Going() && Aligned() && Me().Working?
      modifies `path, `calls, `currentDraft, store
      ensures Words() == old(Words())
      ensures Going() && Aligned() && Me().Working? && ok == world.store(old(calls)).up
      ensures Submitted(old(Entries()), Entries(), content, ok) && (ok ==> HasDraft(content))
    {
      hide Going, Entries;
      var draft := CreateDraft(content);
      ok := draft.Some?;
      if ok {
        Adopt(draft.value);
      }
    }

    /** The new draft takes the place of the one before it. */
    method Adopt(draft: Id)
      requires Going() && Me().Working? && DraftOf(Me()) == Some(draft) && currentDraft != Some(draft)
      requires currentDraft.Some? ==> currentDraft.value in Entries().open
      requires !Entries().lost ==> Entries().open == OnlyCurrent(currentDraft) + {draft}
      modifies `path, `calls, `currentDraft, store
      ensures Words() == old(Words())
      ensures Going() && Aligned() && Me() == old(Me()) && SameProgress(old(Entries()), Entries())
    {
      hide Going, Entries;
      if currentDraft.Some? {
        Supersede(currentDraft.value);
      }
      currentDraft := Some(draft);
    }

    /** The engineer's stage: a turn, and a draft with what it wrote. */
    method Engineer(record: bool) returns (ok: bool, content: string)
      requires Ready(!record)
      modifies `path, `asks, `calls, `stage, `currentDraft, store
      ensures Words() == old(Words()) + TurnWords(world.model, old(asks)) + if ok then DoneWords(record) else []
      ensures asks == TurnEnd(world.model, old(asks)) && TookTurn(world.model, old(asks), old(Entries()), Entries())
      ensures ok == (!TurnFails(world.model, old(asks)) && !Entries().troubled)
      ensures if ok then Ready(true) && HasDraft(content) && content == TurnContent(world.model, old(asks))
              else Going() && Aligned()
    {
      hide Going, Entries, TurnContent, IsWritten;
      stage := Some(Stage.Engineer);
      ok, content := EngineerTurn();
      if ok {
        ok := Submit(content, record);
      }
    }

    method Submit(content: string, record: bool) returns (ok: bool)
      requires Ready(!record)
      modifies `path, `calls, `currentDraft, store
      ensures Words() == old(Words()) + if ok then DoneWords(record) else []
      ensures ok == !Entries().troubled && Entries().booted == old(Entries()).booted
      ensures Entries().written == old(Entries()).written + [content]
      ensures if ok then Ready(true) && HasDraft(content) else Going() && Aligned()
    {
      hide Going, Entries;
      ok := WriteDraft(content);
      if ok {
        Announce(record);
      }
    }

    /** Tells that the file was written, and the first time that the stage is done. */
    method Announce(record: bool)
      requires Ready(!record)
      modifies `path, `calls, store
      ensures Words() == old(Words()) + DoneWords(record)
      ensures Ready(true) && Me() == old(Me()) && SameResult(old(Entries()), Entries())
    {
      hide Going, Entries;
      Emit(FileWritten);
      if record {
        var ref := Reference();
        RecordArtifact(Stage.Engineer, ref);
      }
    }

    /** The gate's verdict on what the engineer wrote. */
    method Qa(content: string, announce: bool) returns (pass: bool)
      requires Ready(true)
      modifies `path, `calls, `stage, store
      ensures Words() == old(Words()) + if announce then [StageStarted(Stage.Qa)] else []
      ensures Ready(true) && Me() == old(Me()) && SameResult(old(Entries()), Entries())
      ensures pass == Gate.Passes(content)
    {
      hide Going, Gate.FindingsOf, Gate.Passes, Entries, Did;
      stage := Some(Stage.Qa);
      if announce {
        Emit(StageStarted(Stage.Qa));
      }
      var errs;
      pass, errs := Gate.Validate(content);
    }

    /** The engineer writes and the gate decides, unless the model fails or the draft is lost. */
    method Attempt(record: bool, announce: bool) returns (ok: bool, pass: bool)
      requires Ready(!record)
      requires record == announce
      modifies `path, `asks, `calls, `stage, `currentDraft, store
      ensures Words() == old(Words()) + TurnWords(world.model, old(asks)) + if ok then FileWords(record) else []
      ensures asks == TurnEnd(world.model, old(asks)) && TookTurn(world.model, old(asks), old(Entries()), Entries())
      ensures ok == (!TurnFails(world.model, old(asks)) && !Entries().troubled)
      ensures if ok then Ready(true) && Judged(pass) && pass == Gate.Passes(TurnContent(world.model, old(asks)))
              else Going() && Aligned()
    {
      hide Going, Gate.Passes, Entries, TurnContent;
      var content;
      pass := false;
      ok, content := Engineer(record);
      if ok {
        pass := Qa(content, announce);
      }
    }

    /** The gate passes the newest draft, or not. */
    ghost predicate Judged(pass: bool)
      reads `path
    {
      Me().Working? && Me().draft.Some? && pass == Gate.Passes(Me().draft.value.content)
    }

    /** One of at most `left` rounds: it takes the plan one turn further, to its end, or off it
        in trouble. */
    method Round(record: bool, announce: bool, ghost left: nat, ghost plan: Plan, ghost before: seq<string>,
                 ghost all: seq<EventKind>)
      returns (ok: bool, pass: bool)
      requires Ready(!record) && left > 0 && Remains(plan, PlanFrom(world.model, asks, left), before, Entries().written)
      requires record == announce && ToSay(world.model, asks, left, record, all, Words())
      modifies `path, `asks, `calls, `stage, `currentDraft, store
      ensures RoundLeaves(world.model, asks, left - 1, all, Words(), ok, pass, Entries().troubled)
      ensures Entries().booted == old(Entries()).booted && (if ok then Ready(true) && Judged(pass) else Going() && Aligned())
      ensures if ok && !pass && left > 1 then
                Remains(plan, PlanFrom(world.model, asks, left - 1), before, Entries().written)
              else ComesTo(plan, before, Entries().written, asks, Entries().troubled, ok, pass)
    {
      hide Going, Gate.Passes, Entries, TurnContent;
      ghost var k, written, words := asks, Entries().written, Words();
      ok, pass := Attempt(record, announce);
      RoundSaid(world.model, k, left, record, all, words, Words(), ok, pass, Entries().troubled);
      PlanTurns(world.model, k, left, plan, before, written, Entries().written, ok, pass, Entries().troubled);
    }

    /* ---- Outcomes ---- */

    /** The draft passed the gate: it is promoted, unless that is lost or conflicts. */
    method Complete() returns (ok: bool)
      requires Ready(true) && Me().draft.Some? && Gate.Passes(Me().draft.value.content)
      modifies `path, `calls, store
      ensures Recites(old(Words()) + EndWords(true), Words(), !ok)
      ensures Decides(old(Entries()), Entries(), ok)
      ensures if ok then Finished(true) else Going() && Aligned()
    {
      hide OnPath, Gate.Passes, Entries;
      var ref := Reference();
      SuccessSaid(Words());
      RecordArtifact(Stage.Qa, ref);
      ok := Promote();
      if ok {
        Say(PreviewReady, true);
        Say(RunCompleted, true);
      }
    }

    /** The repairs are used up. */
    method GiveUp()
      requires Going() && Aligned() && currentDraft.Some?
      modifies `path, `calls, store
      ensures Words() == old(Words()) + EndWords(false)
      ensures Finished(false) && SameResult(old(Entries()), Entries())
    {
      hide OnPath, Entries;
      Reject();
      Say(RunFailed(Some(Stage.Qa), "COMPILE_FAILED"), false);
    }

    /** The last round is over: with its outcome plan and script come to their end, unless the
        promotion fails. */
    method Conclude(pass: bool, ghost left: nat, ghost plan: Plan, ghost before: seq<string>, ghost all: seq<EventKind>)
        returns (ok: bool)
      requires Ready(true) && Judged(pass) && (pass || left == 0)
      requires RoundLeaves(world.model, asks, left, all, Words(), true, pass, Entries().troubled)
      requires ComesTo(plan, before, Entries().written, asks, Entries().troubled, true, pass)
      modifies `path, `calls, store
      ensures ComesTo(plan, before, Entries().written, asks, Entries().troubled, ok, pass)
      ensures Recites(all, Words(), Entries().troubled) && Entries().booted == old(Entries()).booted
      ensures if ok then Finished(pass) else Going() && Aligned()
    {
      hide Gate.Passes, ToSay, Entries, Going, Finished;
      ghost var g := Entries();
      ok := Outcome(pass, all);
      ComesToOutcome(plan, before, g, Entries(), asks, ok, pass);
    }

    method Outcome(pass: bool, ghost all: seq<EventKind>) returns (ok: bool)
      requires Ready(true) && Judged(pass) && all == Words() + EndWords(pass)
      modifies `path, `calls, store
      ensures asks == old(asks) && Recites(all, Words(), !ok) && Decides(old(Entries()), Entries(), ok)
      ensures if ok then Finished(pass) else Going() && Aligned()
    {
      hide Gate.Passes, Entries, Going, Finished;
      ok := true;
      if pass {
        ok := Complete();
      } else {
        GiveUp();
      }
    }

    /** The engineer's rounds, at most two of them repairs: what they write and how they end
        is what the model's answers make of them, unless a call is lost or the promotion
        conflicts. */
    method EngineerQA(ghost all: seq<EventKind>) returns (ok: bool, success: bool)
      requires Ready(false) && ToSay(world.model, asks, MAX_AUTO_FIX_ROUNDS + 1, true, all, Words())
      modifies `path, `asks, `calls, `stage, `currentDraft, store
      ensures ComesTo(PlanFrom(world.model, old(asks), MAX_AUTO_FIX_ROUNDS + 1), old(Entries()).written,
                      Entries().written, asks, Entries().troubled, ok, success)
      ensures Recites(all, Words(), Entries().troubled) && Entries().booted == old(Entries()).booted
      ensures if ok then Finished(success) else Going() && Aligned()
    {
      hide OnPath, Gate.Passes, Entries, ToSay, PlanFrom;
      var qaStarted, engineerRecorded, repairsDone := false, false, 0;
      ghost var before, plan := Entries().written, PlanFrom(world.model, asks, MAX_AUTO_FIX_ROUNDS + 1);
      while true
        invariant Ready(engineerRecorded) && Entries().booted == old(Entries()).booted && repairsDone <= MAX_AUTO_FIX_ROUNDS
        invariant Remains(plan, PlanFrom(world.model, asks, MAX_AUTO_FIX_ROUNDS + 1 - repairsDone), before, Entries().written)
        invariant qaStarted == engineerRecorded
        invariant ToSay(world.model, asks, MAX_AUTO_FIX_ROUNDS + 1 - repairsDone, !engineerRecorded, all, Words())
        decreases MAX_AUTO_FIX_ROUNDS - repairsDone
      {
        var decided, pass := Round(!engineerRecorded, !qaStarted, MAX_AUTO_FIX_ROUNDS + 1 - repairsDone, plan, before, all);
        if !decided {
          return false, false;
        }
        if pass || repairsDone >= MAX_AUTO_FIX_ROUNDS {
          ok := Conclude(pass, MAX_AUTO_FIX_ROUNDS - repairsDone, plan, before, all);
          return ok, pass;
        }
        engineerRecorded, qaStarted, repairsDone := true, true, repairsDone + 1;
      }
    }

    /* ---- The run ---- */

    /** Read `j` of the loop: the rows as they are by then, if it goes through. */
    method Look(j: nat) returns (ok: bool)
      requires Going() && Aligned() && Me() == Booting(runID)
      modifies `path, store
      ensures Words() == old(Words())
      ensures Going() && Aligned() && Me() == old(Me()) && SameWork(old(Entries()), Entries())
      ensures ok == world.looks(j) && Grows(old(store.db), store.db)
    {
      hide OnPath, Entries, Grows;
      Pause();
      ok := world.looks(j);
    }

    /** Can the run be loaded? */
    ghost predicate Loadable() {
      world.looks(0) && world.looks(1) && world.looks(2) && IterationOfRun(start.iterations, runID).Some?
    }

    /** Loads the run, its iteration and its active attempt. */
    method Load() returns (ok: bool)
      requires Going() && Aligned() && Me() == Booting(runID) && IsNew(Entries()) && !Entries().booted
      modifies `path, `projectID, `iterationID, `attemptID, store
      ensures Words() == old(Words())
      ensures Going() && Aligned() && IsNew(Entries()) && Entries().booted == Me().Working? == ok && (Loadable() ==> ok)
    {
      hide Course, BookOf, Grows;
      ok := Look(0);
      if !ok {
        return;
      }
      RunIsThere(start, scaffold, runID, world, path);
      projectID := store.db.runs[runID].project;
      ok := LoadIteration();
    }

    method LoadIteration() returns (ok: bool)
      requires Going() && Aligned() && Me() == Booting(runID) && IsNew(Entries()) && !Entries().booted
      requires runID < |start.runs| && projectID == start.runs[runID].project
      modifies `path, `iterationID, `attemptID, store
      ensures Words() == old(Words())
      ensures Going() && Aligned() && IsNew(Entries()) && Entries().booted == Me().Working? == ok
      ensures world.looks(1) && world.looks(2) && IterationOfRun(start.iterations, runID).Some? ==> ok
    {
      hide Course, BookOf, Grows;
      ok := Look(1);
      RunIsThere(start, scaffold, runID, world, path);
      if IterationOfRun(start.iterations, runID).Some? {
        IterationIsThere(start, store.db, runID);
      }
      var i := IterationOfRun(store.db.iterations, runID);
      if !ok || i.None? {
        return false;
      }
      iterationID := i.value;
      ok := LoadAttempt();
    }

    method LoadAttempt() returns (ok: bool)
      requires Going() && Aligned() && Me() == Booting(runID) && IsNew(Entries()) && !Entries().booted
      requires runID < |start.runs| && projectID == start.runs[runID].project
      requires iterationID < |store.db.iterations| && store.db.iterations[iterationID].run == Some(runID)
      modifies `path, `attemptID, store
      ensures Words() == old(Words())
      ensures Going() && Aligned() && IsNew(Entries()) && Entries().booted == Me().Working? == ok && (world.looks(2) ==> ok)
    {
      hide Course, BookOf;
      ok := Look(2);
      if !ok {
        return;
      }
      RunIsThere(start, scaffold, runID, world, path);
      attemptID := store.db.runs[runID].activeAttempt.value;
      ghost var q := Boots(start, scaffold, runID, world, path, attemptID, iterationID);
      WordsGrow(path, q);
      path := q;
    }

    /** Loads the run and begins its attempt. */
    method Begin() returns (ok: bool)
      requires Going() && Aligned() && Me() == Booting(runID) && IsNew(Entries()) && !Entries().booted
      requires Words() == []
      modifies `path, `calls, `projectID, `iterationID, `attemptID, store
      ensures Words() == if Entries().booted then [RunStarted] else []
      ensures Going() && Aligned() && Entries().written == [] && ok == (Entries().booted && !Entries().troubled)
      ensures (Loadable() ==> Entries().booted) && (ok ==> Me().Working? && Entries().done == {})
    {
      hide Going, Entries, Loadable;
      ok := Load();
      if ok {
        Emit(RunStarted);
        ok := BeginAttempt();
      }
    }

    /** Everything up to the engineer. */
    method Design() returns (ok: bool)
      requires IsFresh()
      modifies `path, `asks, `calls, `stage, `projectID, `iterationID, `attemptID, store
      ensures Entries().written == [] && asks <= 2 && ok == !InTrouble() && (Loadable() ==> Entries().booted)
      ensures if ok then Ready(false) && asks == 2 else Going() && Aligned()
      ensures if ok then DesignSaid(world.model, Words())
              else Recites(Script(world.model), Words(), !Entries().booted || Entries().troubled)
    {
      hide Going, PlanWords, Entries;
      DesignIs(world.model);
      ok := Begin();
      if ok {
        ok := TextStages();
      }
    }

    /** The stages in which the model answers with text. */
    method TextStages() returns (ok: bool)
      requires Going() && Aligned() && Me().Working? && Entries().done == {} && !InTrouble() && asks == 0
      requires Entries().written == [] && Words() == [RunStarted]
      modifies `path, `asks, `calls, `stage, store
      ensures Entries().written == [] && asks <= 2 && Entries().booted && !Entries().troubled
      ensures ok == !FailsBetween(world.model, 0, asks)
      ensures if ok then Ready(false) && asks == 2 && DesignSaid(world.model, Words())
              else Going() && Aligned() && Words() == Script(world.model)
    {
      hide Going, PlanWords, Entries;
      DesignIs(world.model);
      FailsInFirst(world.model);
      ok := TextStage(Pm);
      assert asks == 1 && Words() == [RunStarted] + TextWords(world.model(0), Pm);
      if ok {
        ok := TextStage(Architect);
      }
    }

    /** The run could not be loaded, a call failed that the loop cannot do without, or one of
        the answers so far was a failure. */
    ghost predicate InTrouble()
      reads `path, `asks
    {
      !Entries().booted || Entries().troubled || FailsBetween(world.model, 0, asks)
    }

    /** What the engineer makes of the model's answers after the first two. */
    ghost function EngineerPlan(): Plan { PlanFrom(world.model, 2, MAX_AUTO_FIX_ROUNDS + 1) }

    /** The stages of the run in their order. */
    method Pipeline() returns (ok: bool, success: bool)
      requires IsFresh()
      modifies this, store
      ensures Recites(Script(world.model), Words(), !Entries().booted || Entries().troubled)
      ensures ok == !InTrouble() && Entries().written <= EngineerPlan().contents && (Loadable() ==> Entries().booted)
      ensures asks <= EngineerPlan().next && (!ok ==> Going() && Aligned())
      ensures ok ==> Finished(success) && asks == EngineerPlan().next && Entries().written == EngineerPlan().contents &&
                     success == PlanPasses(EngineerPlan())
    {
      hide OnPath, Gate.Passes, Entries, TurnContent, PlanWords;
      success := false;
      ok := Design();
      PlanGoesOn(world.model, 2, MAX_AUTO_FIX_ROUNDS + 1);
      if ok {
        ok, success := Build();
      }
    }

    /** The engineer's stage and the gate's. */
    method Build() returns (ok: bool, success: bool)
      requires Ready(false) && asks == 2 && Entries().written == [] && !InTrouble()
      requires DesignSaid(world.model, Words())
      modifies `path, `asks, `calls, `stage, `currentDraft, store
      ensures Recites(Script(world.model), Words(), Entries().troubled)
      ensures ok == !InTrouble() && Entries().written <= EngineerPlan().contents && Entries().booted
      ensures asks <= EngineerPlan().next && (!ok ==> Going() && Aligned())
      ensures ok ==> Finished(success) && asks == EngineerPlan().next && Entries().written == EngineerPlan().contents &&
                     success == PlanPasses(EngineerPlan())
    {
      hide OnPath, Gate.Passes;
      EngineerToSay(world.model, Words());
      StartStage(Stage.Engineer);
      ghost var k, before := asks, Entries().written;
      ok, success := EngineerQA(Script(world.model));
      PlanIsDone(world.model, k, before, Entries(), asks, ok, success);
    }

    /** Something other than the gate went wrong. */
    method FailInfra(ghost all: seq<EventKind>)
      requires Going() && Aligned()
      modifies `path, `calls, store
      ensures old(Words()) <= all ==> CutShort(all, Words(), stage)
      ensures Finished(false) && SameResult(old(Entries()), Entries())
    {
      hide Course, BookOf;
      if currentDraft.Some? {
        Reject();
      } else {
        Abandon();
      }
      var code := ClassifyError();
      if Words() <= all {
        FailureIsSaid(all, Words(), stage, code);
      }
      Say(RunFailed(stage, code), false);
    }

    /** One execution of the loop.  Out of trouble it writes what its plan says, asks the model
        no more than that, and succeeds exactly if the plan ends with a content that passes the
        gate; in trouble it fails, unless the process is shutting down. */
    method Run() returns (aborted: bool, success: bool)
      requires IsFresh()
      modifies this, store
      ensures if !InTrouble() then Words() == Script(world.model)
              else if aborted then Words() <= Script(world.model)
              else CutShort(Script(world.model), Words(), stage)
      ensures if aborted then Going() else Finished(success)
      ensures aborted == (InTrouble() && world.down)
      ensures success == (!InTrouble() && PlanPasses(EngineerPlan()))
      ensures Entries().written <= EngineerPlan().contents && asks <= EngineerPlan().next
      ensures !InTrouble() ==> Entries().written == EngineerPlan().contents && asks == EngineerPlan().next
      ensures WrittenInTurns(world.model, 2, Entries().written) && |Entries().written| <= 3
      ensures !InTrouble() && !success ==> |Entries().written| == 3
      ensures asks <= 2 + 3 * 8
      ensures Loadable() ==> Entries().booted
    {
      hide OnPath, Gate.Passes, Script, PlanFrom, WrittenInTurns;
      var ok;
      PlanBounds(world.model, 2, MAX_AUTO_FIX_ROUNDS + 1);
      ok, success := Pipeline();
      PlanWritesLast(world.model, 2, MAX_AUTO_FIX_ROUNDS + 1, Entries().written);
      if ok {
        return false, success;
      }
      if world.down {
        return true, false;
      }
      FailInfra(Script(world.model));
      aborted, success := false, false;
    }
  }

  /** What the engineer's rounds come to, for the whole run. */
  lemma PlanIsDone(model: nat -> Answer, k: nat, before: seq<string>, g: Book, asks: nat, ok: bool, success: bool)
    requires k == 2 && before == [] && !FailsBetween(model, 0, 2)
    requires ComesTo(PlanFrom(model, k, MAX_AUTO_FIX_ROUNDS + 1), before, g.written, asks, g.troubled, ok, success)
    ensures ok == !(g.troubled || FailsBetween(model, 0, asks))
    ensures var p := PlanFrom(model, 2, MAX_AUTO_FIX_ROUNDS + 1);
            g.written <= p.contents && asks <= p.next &&
            (ok ==> asks == p.next && g.written == p.contents && success == PlanPasses(p))
  {
    hide Gate.Passes, PlanFrom;
    PlanIsMet(model, k, MAX_AUTO_FIX_ROUNDS + 1, before, g.written, asks, g.troubled);
  }

  lemma ComesToOutcome(p: Plan, before: seq<string>, g: Book, h: Book, asks: nat, ok: bool, pass: bool)
    requires ComesTo(p, before, g.written, asks, g.troubled, true, pass) && Decides(g, h, ok)
    ensures ComesTo(p, before, h.written, asks, h.troubled, ok, pass)
  {
  }

  /** A run whose iteration was there at the start still has it. */
  lemma {:induction false} IterationIsThere(start: Db, db: Db, r: Id)
    requires Grows(start, db) && IterationOfRun(start.iterations, r).Some?
    ensures IterationOfRun(db.iterations, r).Some?
  {
    var i := IterationOfRun(start.iterations, r).value;
    assert IterationKept(start.iterations[i], db.iterations[i]);
  }

  /** Executes the tool calls of an answer, and counts those that get a result. */
  method ExecuteCalls(calls: seq<ToolCall>, content: string, ghost before: seq<Answer>)
    returns (content': string, results: nat)
    requires content == LastWrite(Executed(before))
    ensures forall a: Answer :: a.Answer? && a.toolUse && a.calls == calls ==>
              content' == LastWrite(Executed(before + [a]))
    ensures LeavesContent(calls, content, content')
    ensures results > 0 <==> exists c | c in calls :: c.isWriteFile
  {
    content', results := content, 0;
    assert Executed(before) + calls[..0] == Executed(before);
    for k := 0 to |calls|
      invariant content' == LastWrite(Executed(before) + calls[..k])
      invariant results > 0 <==> exists c | c in calls[..k] :: c.isWriteFile
    {
      var c := calls[k];
      assert calls[..k + 1] == calls[..k] + [c];
      assert (Executed(before) + calls[..k + 1])[..|Executed(before)| + k] == Executed(before) + calls[..k];
      if !c.isWriteFile {
        continue;
      }
      results := results + 1;
      if !c.decodes || !c.pathOk || |c.content| > Gate.FILE_CONTENT_MAX_BYTES {
        continue;
      }
      var forbidden := Gate.ForbiddenInCode(c.content);
      if forbidden.None? {
        content' := c.content;
      }
    }
    assert calls[..|calls|] == calls;
    LastWriteJoins(Executed(before), calls);
    forall a: Answer | a.Answer? && a.toolUse && a.calls == calls
      ensures content' == LastWrite(Executed(before + [a]))
    {
      ExecutedNext(before, a);
    }
  }

  /** Takes answer `n` of the turn that began at answer `k`: it may have failed, and it may
      have tool calls that are executed and answered. */
  method Execute(a: Answer, content: string, ghost model: nat -> Answer, ghost k: nat, ghost n: nat)
    returns (ok: bool, more: bool, content': string)
    requires a == model(k + n) && TurnSoFar(model, k, n, true, true, content)
    ensures TurnSoFar(model, k, n + 1, more, ok, content') && (more ==> ok)
  {
    if a.Failure? {
      TurnGoesOn(model, k, n, content, content);
      return false, false, content;
    }
    var results := 0;
    content' := content;
    if a.toolUse {
      content', results := ExecuteCalls(a.calls, content, Answers(model, k, n));
    } else {
      ExecutedNext(Answers(model, k, n), a);
    }
    ok, more := true, results > 0;
    TurnGoesOn(model, k, n, content, content');
  }
}
