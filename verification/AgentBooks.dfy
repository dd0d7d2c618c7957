/** What the moves of a path amount to, read off the path alone, and the order the loop keeps
    its moves in. */
module AgentBooks {
  import opened Prelude
  import opened Tables
  import opened Operations
  import opened Invariant
  import opened RunSteps
  import opened Systems
  import opened AgentModel
  import opened AgentPaths
  import opened AgentStages
  import Gate

  /** Whether the run was loaded; the loop's drafts that are not settled, the stages it has recorded an artifact for, the
      contents it has written, the answers and store calls so far; whether a call was lost,
      whether others logged a disruptive event while the run was the loop's, whether a call
      failed that the loop cannot do without; the moment at which the run was ended, whether
      by acceptance, and whether the terminal event has been tried. */
  datatype Book = Book(
    booted: bool, open: set<Id>, done: set<Stage>, written: seq<string>, heard: nat, calls: nat,
    lost: bool, meddled: bool, troubled: bool,
    closed: Option<nat>, accepted: bool, spoken: bool)

  const BLANK := Book(false, {}, {}, [], 0, 0, false, false, false, None, false, false)

  /** The agent's last draft. */
  function DraftOf(a: Agent): Option<Id> {
    if a.Working? && a.draft.Some? then Some(a.draft.value.version) else None
  }

  function OnlyCurrent(draft: Option<Id>): set<Id> { if draft.Some? then {draft.value} else {} }

  /** Did others log a disruptive event while the run was the agent's? */
  predicate DisruptedAt(x: Moment, y: Moment) {
    x.agent.Live() && x.agent.run < |x.db.runs| && x.agent.run < |y.db.runs| &&
    Disrupted(x.db.runs[x.agent.run], y.db.runs[x.agent.run])
  }

  /** An own call is entered; `k` is the moment it leads to. */
  function Entered(g: Book, x: Moment, b: Agent, action: Action, lost: bool, k: nat): Book {
    var h := g.(calls := g.calls + if action.Boot? then 0 else 1, lost := g.lost || lost);
    match action
    case Boot(_, _) => h.(booted := true)
    case Record(s, _) => h.(done := h.done + {s})
    case Begin => h.(troubled := h.troubled || lost)
    case Write(content) =>
      h.(written := h.written + [content], troubled := h.troubled || lost,
         open := if lost then h.open else h.open + {|x.db.versions|})
    case Supersede(v) => h.(open := if lost then h.open else h.open - {v})
    case Accept =>
      if b.Ending? then h.(open := h.open - OnlyCurrent(DraftOf(x.agent)), closed := Some(k), accepted := true)
      else h.(troubled := true)
    case Reject =>
      if lost then h else h.(open := h.open - OnlyCurrent(DraftOf(x.agent)), closed := Some(k))
    case Abandon => if lost then h else h.(closed := Some(k))
    case LastWords(kind) => h.(spoken := h.spoken || IsTerminal(kind))
    case _ => h
  }

  function BookNext(g: Book, x: Moment, y: Moment, k: nat): Book {
    match y.move
    case Others => g.(meddled := g.meddled || DisruptedAt(x, y))
    case Heard(_) => g.(heard := g.heard + 1)
    case Own(action, lost, _) => Entered(g, x, y.agent, action, lost, k)
  }

  function BookOf(path: seq<Moment>): Book {
    if |path| <= 1 then BLANK
    else
      var last := |path| - 1;
      BookNext(BookOf(path[..last]), path[last - 1], path[last], last)
  }

  lemma {:induction false} BookUnfolds(path: seq<Moment>, before: seq<Moment>, x: Moment, y: Moment, k: nat)
    requires |path| > 1 && k == |path| - 1 && before == path[..k] && x == path[k - 1] && y == path[k]
    ensures BookOf(path) == BookNext(BookOf(before), x, y, k)
  {
  }

  lemma {:induction false} BookExtends(path: seq<Moment>, y: Moment)
    requires path != []
    ensures BookOf(path + [y]) == BookNext(BookOf(path), Last(path), y, |path|)
  {
    BookUnfolds(path + [y], path, Last(path), y, |path|);
  }

  /* ---- The flags in plain words ---- */

  ghost predicate HasLost(path: seq<Moment>) { exists k :: 0 < k < |path| && path[k].move.Own? && path[k].move.lost }

  ghost predicate HasMeddled(path: seq<Moment>) {
    exists k :: 0 < k < |path| && path[k].move.Others? && DisruptedAt(path[k - 1], path[k])
  }

  /** The call that led here failed and the loop cannot do without it: the beginning of its
      attempt, a draft, or a promotion, which may also fail because the base has moved. */
  predicate IsFailure(y: Moment) { y.move.Own? && Fails(y.agent, y.move.action, y.move.lost) }

  predicate Fails(b: Agent, action: Action, lost: bool) {
    match action
    case Begin => lost
    case Write(_) => lost
    case Accept => !b.Ending?
    case _ => false
  }

  ghost predicate HasTrouble(path: seq<Moment>) { exists k :: 0 < k < |path| && IsFailure(path[k]) }

  /** The move at `k` ended the run: a store call of the live agent that went through. */
  predicate RunEndsAt(path: seq<Moment>, k: nat) {
    0 < k < |path| && path[k - 1].agent.Live() && path[k].agent.Ending? && path[k].move.Own? && !path[k].move.lost
  }

  /** How one moment moves the flags. */
  lemma FlagsNext(g: Book, x: Moment, y: Moment, k: nat)
    ensures var h := BookNext(g, x, y, k);
            h.lost == (g.lost || (y.move.Own? && y.move.lost)) &&
            h.meddled == (g.meddled || (y.move.Others? && DisruptedAt(x, y))) &&
            h.troubled == (g.troubled || IsFailure(y))
  {
    if y.move.Own? {
      EnteredLost(g, x, y.agent, y.move.action, y.move.lost, k);
      EnteredMeddled(g, x, y.agent, y.move.action, y.move.lost, k);
      EnteredTrouble(g, x, y.agent, y.move.action, y.move.lost, k);
    }
  }

  lemma EnteredLost(g: Book, x: Moment, b: Agent, action: Action, lost: bool, k: nat)
    ensures Entered(g, x, b, action, lost, k).lost == (g.lost || lost)
  {
    match action
    case Accept =>
    case _ =>
  }

  lemma EnteredMeddled(g: Book, x: Moment, b: Agent, action: Action, lost: bool, k: nat)
    ensures Entered(g, x, b, action, lost, k).meddled == g.meddled
  {
    match action
    case Accept =>
    case _ =>
  }

  lemma EnteredTrouble(g: Book, x: Moment, b: Agent, action: Action, lost: bool, k: nat)
    ensures Entered(g, x, b, action, lost, k).troubled == (g.troubled || Fails(b, action, lost))
  {
    hide DraftOf, OnlyCurrent, IsTerminal;
  }

  lemma {:induction false} LostIsFact(path: seq<Moment>)
    ensures BookOf(path).lost <==> HasLost(path)
  {
    if |path| > 1 {
      var last := |path| - 1;
      LostIsFact(path[..last]);
      LostNext(path);
      FlagsNext(BookOf(path[..last]), path[last - 1], path[last], last);
    }
  }

  lemma {:induction false} MeddledIsFact(path: seq<Moment>)
    ensures BookOf(path).meddled <==> HasMeddled(path)
  {
    if |path| > 1 {
      var last := |path| - 1;
      MeddledIsFact(path[..last]);
      MeddledNext(path);
      FlagsNext(BookOf(path[..last]), path[last - 1], path[last], last);
    }
  }

  lemma {:induction false} TroubleIsFact(path: seq<Moment>)
    ensures BookOf(path).troubled <==> HasTrouble(path)
  {
    if |path| > 1 {
      var last := |path| - 1;
      TroubleIsFact(path[..last]);
      TroubleNext(path);
      FlagsNext(BookOf(path[..last]), path[last - 1], path[last], last);
    }
  }

  lemma LostNext(path: seq<Moment>)
    requires |path| > 1
    ensures var last := |path| - 1;
            HasLost(path) <==> HasLost(path[..last]) || (path[last].move.Own? && path[last].move.lost)
  {
    var before := path[..|path| - 1];
    if HasLost(before) {
      var k :| 0 < k < |before| && before[k].move.Own? && before[k].move.lost;
      assert path[k] == before[k];
    }
    if HasLost(path) {
      var k :| 0 < k < |path| && path[k].move.Own? && path[k].move.lost;
      assert k < |before| ==> before[k] == path[k];
    }
  }

  lemma MeddledNext(path: seq<Moment>)
    requires |path| > 1
    ensures var last := |path| - 1;
            HasMeddled(path) <==>
            HasMeddled(path[..last]) || (path[last].move.Others? && DisruptedAt(path[last - 1], path[last]))
  {
    hide DisruptedAt;
    var before := path[..|path| - 1];
    if HasMeddled(before) {
      var k :| 0 < k < |before| && before[k].move.Others? && DisruptedAt(before[k - 1], before[k]);
      assert path[k] == before[k] && path[k - 1] == before[k - 1];
    }
    if HasMeddled(path) {
      var k :| 0 < k < |path| && path[k].move.Others? && DisruptedAt(path[k - 1], path[k]);
      assert k < |before| ==> before[k] == path[k] && before[k - 1] == path[k - 1];
    }
  }

  lemma TroubleNext(path: seq<Moment>)
    requires |path| > 1
    ensures HasTrouble(path) <==> HasTrouble(path[..|path| - 1]) || IsFailure(path[|path| - 1])
  {
    var before := path[..|path| - 1];
    if HasTrouble(before) {
      var k :| 0 < k < |before| && IsFailure(before[k]);
      assert path[k] == before[k];
    }
    if HasTrouble(path) {
      var k :| 0 < k < |path| && IsFailure(path[k]);
      assert k < |before| ==> before[k] == path[k];
    }
  }

  /* ---- The order the loop keeps ---- */

  /** May the loop take the action now?  No event takes a done stage back; only an open draft
      is superseded; the run ends with its last draft as the only open one, accepted only
      with all stages done; and the terminal event is the last word and tells the outcome.
      What was lost is beyond the loop's control. */
  predicate InOrder(g: Book, a: Agent, action: Action) {
    match action
    case Emit(kind) => Harmless(kind, g.done)
    case Supersede(v) => v in g.open
    case Accept => g.done == ALL_STAGES && (g.lost || g.open == OnlyCurrent(DraftOf(a)))
    case Reject => g.lost || g.open == OnlyCurrent(DraftOf(a))
    case Abandon => g.lost || g.open == {}
    case LastWords(kind) => !g.spoken && (IsTerminal(kind) ==> kind.RunCompleted? == g.accepted)
    case Leave => false
    case _ => true
  }

  /** The move is what the world has in store, and one of the loop in its order. */
  predicate Allowed(g: Book, a: Agent, move: Move, world: World) {
    match move
    case Others => true
    case Heard(answer) => answer == world.model(g.heard)
    case Own(action, lost, now) =>
      InOrder(g, a, action) && (action.Boot? || world.store(g.calls) == Response(!lost, now))
  }

  ghost predicate AllowedAt(path: seq<Moment>, k: nat, world: World)
    requires 0 < k < |path|
  {
    Allowed(BookOf(path[..k]), path[k - 1].agent, path[k].move, world)
  }

  /** The path of a loop that was started for run `r` on the store `start`, in that world. */
  ghost predicate Course(start: Db, scaffold: seq<Snapshot>, r: Id, world: World, path: seq<Moment>) {
    SystemOk(Alone(start, Booting(r), scaffold)) && IsPath(path, scaffold) &&
    path[0] == Moment(start, Booting(r), Others) &&
    forall k :: 0 < k < |path| ==> AllowedAt(path, k, world)
  }

  lemma CourseStarts(start: Db, scaffold: seq<Snapshot>, r: Id, world: World)
    requires SystemOk(Alone(start, Booting(r), scaffold))
    ensures Course(start, scaffold, r, world, [Moment(start, Booting(r), Others)])
  {
    hide LeadsAt, SystemOk, AllowedAt;
  }

  lemma {:induction false} CourseExtends(start: Db, scaffold: seq<Snapshot>, r: Id, world: World, path: seq<Moment>, y: Moment)
    requires Course(start, scaffold, r, world, path) && Leads(Last(path), y, scaffold)
    requires Allowed(BookOf(path), Last(path).agent, y.move, world)
    ensures Course(start, scaffold, r, world, path + [y])
    ensures BookOf(path + [y]) == BookNext(BookOf(path), Last(path), y, |path|)
  {
    hide Leads, SystemOk, BookNext, Allowed;
    BookExtends(path, y);
    PathExtends(path, y, scaffold);
    forall k | 0 < k < |path + [y]| ensures AllowedAt(path + [y], k, world) {
      AllowedExtends(path, y, k, world);
    }
  }

  lemma {:induction false} AllowedExtends(path: seq<Moment>, y: Moment, k: nat, world: World)
    requires path != [] && 0 < k < |path + [y]| && (k < |path| ==> AllowedAt(path, k, world))
    requires k == |path| ==> Allowed(BookOf(path), Last(path).agent, y.move, world)
    ensures AllowedAt(path + [y], k, world)
  {
    hide BookOf, Allowed;
    assert (path + [y])[..k] == path[..k];
  }
}
