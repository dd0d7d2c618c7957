/** What one execution of the agent loop does to the store, seen as a path of moves: its own
    store calls, each a step of the agent in Systems, and whatever others do in between. */
module AgentPaths {
  import opened Prelude
  import opened Tables
  import opened Workflows
  import opened Operations
  import opened Invariant
  import opened RunSteps
  import opened VersionSteps
  import opened Calls
  import opened Systems
  import opened SystemSafety
  import opened Interference
  import opened AgentModel

  /* ---- What the loop keeps track of ---- */

  /** The system as the agent alone sees it. */
  function Alone(db: Db, a: Agent, scaffold: seq<Snapshot>): System { System(db, map[0 := a], scaffold) }

  /** What others may do between two store calls of the agent. */
  ghost predicate Tolerable(db: Db, d: Db, a: Agent, ro: FileSet) {
    Inv(d, ro) && Grows(db, d) && (a.Live() ==> Undisturbed(db, d, a.run))
  }

  /** Others act, the model answers, or the loop makes a store call, which may be lost. */
  datatype Move = Others | Heard(answer: Answer) | Own(action: Action, lost: bool, now: Time)

  /** A state on the way, and the move that led to it. */
  datatype Moment = Moment(db: Db, agent: Agent, move: Move)

  ghost predicate Leads(x: Moment, y: Moment, scaffold: seq<Snapshot>) {
    match y.move
    case Others => y.agent == x.agent && Tolerable(x.db, y.db, x.agent, ReadOnly(scaffold))
    case Heard(_) => y.agent == x.agent && y.db == x.db
    case Own(action, lost, now) =>
      Acts(Alone(x.db, x.agent, scaffold), 0, action, lost, now, Alone(y.db, y.agent, scaffold))
  }

  ghost predicate LeadsAt(path: seq<Moment>, k: nat, scaffold: seq<Snapshot>)
    requires 0 < k < |path|
  {
    Leads(path[k - 1], path[k], scaffold)
  }

  ghost predicate IsPath(path: seq<Moment>, scaffold: seq<Snapshot>) {
    path != [] && forall k :: 0 < k < |path| ==> LeadsAt(path, k, scaffold)
  }

  /** Where no path leads. */
  const NOWHERE := Moment(EMPTY, Ending(0), Others)

  function Last(path: seq<Moment>): Moment { if path == [] then NOWHERE else path[|path| - 1] }

  function Uttered(move: Move): seq<EventKind> {
    if move.Own? && !move.lost then
      match move.action
      case Emit(kind) => [kind]
      case LastWords(kind) => [kind]
      case _ => []
    else []
  }

  /** The events the loop persisted along a path. */
  function Said(path: seq<Moment>): seq<EventKind> {
    if |path| <= 1 then [] else Said(path[..|path| - 1]) + Uttered(path[|path| - 1].move)
  }

  lemma {:induction false} PathExtends(path: seq<Moment>, y: Moment, scaffold: seq<Snapshot>)
    requires IsPath(path, scaffold) && Leads(Last(path), y, scaffold)
    ensures IsPath(path + [y], scaffold) && Said(path + [y]) == Said(path) + Uttered(y.move)
  {
    hide Leads;
    var path' := path + [y];
    assert path'[..|path|] == path;
    forall k | 0 < k < |path'| ensures LeadsAt(path', k, scaffold) {
      if k < |path| {
        assert LeadsAt(path, k, scaffold);
      }
    }
  }

  predicate NothingTerminal(said: seq<EventKind>) { forall k | k in said :: !IsTerminal(k) }

  /** Exactly one terminal event, and it is the last one. */
  predicate EndsOnce(said: seq<EventKind>) {
    said != [] && IsTerminal(said[|said| - 1]) && NothingTerminal(said[..|said| - 1])
  }

  predicate Drafted(db: Db, v: Id, r: Id) { MadeFor(db, v, r) && db.versions[v].status == DraftVersion }

  /** Since the start of the loop, the stable version of the run's project has not moved,
      and the run's drafts are those there were and the open ones of the loop. */
  ghost predicate OnTrack(start: Db, db: Db, r: Id, open: set<Id>) {
    r < |start.runs| <= |db.runs| && start.runs[r].project < |start.projects| && Grows(start, db) &&
    db.runs[r].project == start.runs[r].project &&
    db.projects[start.runs[r].project].stable == start.projects[start.runs[r].project].stable &&
    (forall v :: v in open ==> |start.versions| <= v) &&
    forall v: Id :: Drafted(db, v, r) <==> v in open || Drafted(start, v, r)
  }

  /** Version `v` is the one made last for run `r`. */
  ghost predicate LastMade(db: Db, v: Id, r: Id) {
    MadeFor(db, v, r) && forall u: Id :: MadeFor(db, u, r) ==> u <= v
  }

  lemma MadeForStays(db: Db, ro: FileSet, d: Db, v: Id, r: Id)
    requires Inv(db, ro) && Grows(db, d) && MadeFor(db, v, r)
    ensures MadeFor(d, v, r)
  {
    hide VersionOk, RunOk;
    assert VersionOk(db, ro, v) && VersionKept(db.versions[v], d.versions[v]);
    assert IterationKept(db.iterations[db.versions[v].iteration], d.iterations[d.versions[v].iteration]);
  }

  lemma OnTrackStays(start: Db, db: Db, ro: FileSet, d: Db, r: Id, open: set<Id>)
    requires OnTrack(start, db, r, open) && Inv(db, ro) && Grows(db, d) && Untouched(db, d, r)
    ensures OnTrack(start, d, r, open)
    ensures forall v: Id :: LastMade(db, v, r) ==> LastMade(d, v, r)
  {
    hide Inv;
    GrowsTransitive(start, db, d);
    assert RunKept(start.runs[r], db.runs[r]);
    forall v: Id | MadeFor(db, v, r) ensures MadeFor(d, v, r) {
      MadeForStays(db, ro, d, v, r);
    }
  }

  /** Writing a draft opens it. */
  lemma OnTrackWrites(start: Db, db: Db, ro: FileSet, d: Db, r: Id, i: Id, version: Version, open: set<Id>)
    requires OnTrack(start, db, r, open) && Inv(db, ro) && Grows(db, d)
    requires version.iteration == i < |db.iterations| && db.iterations[i].run == Some(r)
    requires version.status == DraftVersion && d == db.(versions := db.versions + [version])
    ensures OnTrack(start, d, r, open + {|db.versions|}) && LastMade(d, |db.versions|, r)
  {
    hide Inv;
    GrowsTransitive(start, db, d);
  }

  /** Settling an open draft closes it. */
  lemma OnTrackSettles(start: Db, db: Db, ro: FileSet, d: Db, r: Id, v: Id, status: VersionStatus, open: set<Id>)
    requires OnTrack(start, db, r, open) && Inv(db, ro) && Grows(db, d)
    requires v in open && MadeFor(db, v, r) && status != DraftVersion
    requires d.versions == db.versions[v := db.versions[v].(status := status)]
    ensures Grows(start, d)
    ensures forall u: Id :: Drafted(d, u, r) <==> u in open - {v} || Drafted(start, u, r)
    ensures forall u: Id :: LastMade(db, u, r) ==> LastMade(d, u, r)
  {
    hide AppPasses, RunOk;
    GrowsTransitive(start, db, d);
    forall u: Id ensures MadeFor(d, u, r) == MadeFor(db, u, r) {
      if MadeFor(db, u, r) {
        MadeForStays(db, ro, d, u, r);
      } else if u < |db.versions| {
        assert VersionOk(db, ro, u);
        assert IterationKept(db.iterations[db.versions[u].iteration], d.iterations[d.versions[u].iteration]);
      }
    }
    assert !Drafted(start, v, r);
  }

  /** A workflow that points at the run has the status. */
  ghost predicate FlowsEnded(c: Db, r: Id, status: WorkflowStatus) {
    forall p :: p in c.workflows && c.workflows[p].run == Some(r) ==> c.workflows[p].status == status
  }

  lemma BumpedEnds(db: Db, ro: FileSet, c: Db, r: Id, status: WorkflowStatus, now: Time)
    requires Inv(db, ro) && r < |db.runs| && c.workflows == Bumped(db, r, status, now)
    ensures FlowsEnded(c, r, status)
  {
    hide Inv;
    InvPointers(db, ro);
  }

  /** The store right after the write that ended the run. */
  ghost predicate Concluded(start: Db, c: Db, r: Id, open: set<Id>, draft: Option<Id>, success: bool) {
    r < |start.runs| && start.runs[r].project < |start.projects| && Grows(start, c) &&
    c.runs[r].status == (if success then Succeeded else Failed) &&
    FlowsEnded(c, r, if success then CompletedFlow else FailedFlow) &&
    (forall v: Id :: Drafted(c, v, r) <==> v in open || Drafted(start, v, r)) &&
    var stable := c.projects[start.runs[r].project].stable;
    if success then
      stable == draft && draft.Some? && LastMade(c, draft.value, r) && |start.versions| <= draft.value &&
      c.versions[draft.value].status == StableVersion && AppPasses(c.versions[draft.value].files)
    else stable == start.projects[start.runs[r].project].stable
  }
}
