/** The loop's words in the stored log: every event the loop persists is in the log of its
    run, in the order of the words, and what else is in there came from others. */
module AgentLog {
  import opened Prelude
  import opened Tables
  import opened Workflows
  import opened Operations
  import opened Invariant
  import opened RunSteps
  import opened Calls
  import opened Systems
  import opened SystemSafety
  import opened AgentModel
  import opened AgentPaths

  /* ---- Single writes ---- */

  /** No store call of an agent but the one for events writes to a log. */
  lemma OnlyEventsLog(db: Db, c: AgentCall, now: Time, r: Id)
    requires r < |db.runs| && !c.DoEvent? && Perform(db, c, now).Ok?
    ensures var d := Perform(db, c, now).value; r < |d.runs| && d.runs[r].log == db.runs[r].log
  {
    hide AppendEvent, RecordArtifact, BeginAttempt, EndOwner, FailRun;
    match c {
      case DoArtifact(k, a, stage, ref) => RowsLogNothing(db, k, a, stage, ref, now, r);
      case DoBegin(k, a) => RowsLogNothing(db, k, a, Qa, "", now, r);
      case DoFailRun(k) => RowsLogNothing(db, k, 0, Qa, "", now, r);
      case DoPromote(v, owner) => VersionsLogNothing(db, v, owner, now, r);
      case DoFailDraft(v, owner) => VersionsLogNothing(db, v, owner, now, r);
      case DoDraft(_, _, _) =>
    }
  }

  ghost predicate KeepsLog(db: Db, res: Result<Db>, r: Id) {
    res.Ok? && r < |db.runs| ==> r < |res.value.runs| && res.value.runs[r].log == db.runs[r].log
  }

  lemma RowsLogNothing(db: Db, k: Id, a: Id, stage: Stage, ref: string, now: Time, r: Id)
    ensures KeepsLog(db, RecordArtifact(db, k, a, stage, ref, now), r)
    ensures KeepsLog(db, BeginAttempt(db, k, a, now), r) && KeepsLog(db, FailRun(db, k, now), r)
  {
  }

  lemma VersionsLogNothing(db: Db, v: Id, owner: Option<(Id, Id)>, now: Time, r: Id)
    ensures KeepsLog(db, TablesOf(Promote(db, v, owner, now)), r)
    ensures KeepsLog(db, TablesOf(FailDraft(db, v, owner, now)), r)
  {
  }

  /** What an own move leaves in the log: what it utters, at the end. */
  ghost predicate Appends(log: seq<Event>, log': seq<Event>, uttered: seq<EventKind>) {
    log <= log' && |log'| == |log| + |uttered| && forall k :: 0 <= k < |uttered| ==> log'[|log| + k].kind == uttered[k]
  }

  lemma EventAppends(db: Db, ro: FileSet, r: Id, kind: EventKind, now: Time)
    requires Inv(db, ro) && r < |db.runs|
    ensures var res := AppendEvent(db, r, kind, now);
            res.Ok? && r < |res.value.runs| && Appends(db.runs[r].log, res.value.runs[r].log, [kind])
  {
    hide Inv, AppendEvent, Grows;
    AppendEventKeeps(db, ro, r, kind, now);
  }

  lemma ActAppends(s: System, a: Agent, action: Action, lost: bool, now: Time)
    requires SystemOk(s) && AgentOk(s.db, a) && Enabled(s, a, action)
    ensures var res := Effect(s, a, action, lost, now);
            var d := if res.Ok? then res.value else s.db;
            a.run < |d.runs| && Appends(s.db.runs[a.run].log, d.runs[a.run].log, Uttered(Own(action, lost, now)))
  {
    hide Inv, Enabled, AppendEvent;
    match action
    case Emit(kind) => EventAppends(s.db, ReadOnly(s.scaffold), a.run, kind, now);
    case LastWords(kind) => EventAppends(s.db, ReadOnly(s.scaffold), a.run, kind, now);
    case Boot(_, _) =>
    case Leave =>
    case _ =>
      if Effect(s, a, action, lost, now).Ok? {
        OnlyEventsLog(s.db, CallOf(s, a, action).value, now, a.run);
      }
  }

  /** The log of the agent's run at a moment. */
  function LogAt(m: Moment): seq<Event> { if m.agent.run < |m.db.runs| then m.db.runs[m.agent.run].log else [] }

  /** A move of the path appends what it utters; a move of others may append anything. */
  lemma MoveAppends(x: Moment, y: Moment, scaffold: seq<Snapshot>)
    requires SystemOk(Alone(x.db, x.agent, scaffold)) && Leads(x, y, scaffold)
    ensures SystemOk(Alone(y.db, y.agent, scaffold)) && y.agent.run == x.agent.run && LogAt(x) <= LogAt(y)
    ensures y.move.Own? ==> Appends(LogAt(x), LogAt(y), Uttered(y.move))
    ensures y.move.Heard? ==> LogAt(y) == LogAt(x)
  {
    hide Acts, Inv;
    var s, s' := Alone(x.db, x.agent, scaffold), Alone(y.db, y.agent, scaffold);
    assert AgentOk(x.db, s.agents[0]);
    match y.move
    case Others =>
      AgentStays(x.db, y.db, x.agent);
      assert RunKept(x.db.runs[x.agent.run], y.db.runs[y.agent.run]);
    case Heard(_) =>
    case Own(action, lost, now) =>
      ActKeeps(s, 0, action, lost, now, s');
      OwnMoveAppends(x, y, scaffold);
  }

  lemma OwnMoveAppends(x: Moment, y: Moment, scaffold: seq<Snapshot>)
    requires SystemOk(Alone(x.db, x.agent, scaffold)) && Leads(x, y, scaffold) && y.move.Own?
    ensures y.agent.run == x.agent.run && Appends(LogAt(x), LogAt(y), Uttered(y.move))
  {
    hide Effect, Inv, Enabled, Tolerable;
    var s, s' := Alone(x.db, x.agent, scaffold), Alone(y.db, y.agent, scaffold);
    assert AgentOk(x.db, s.agents[0]);
    ActAppends(s, x.agent, y.move.action, y.move.lost, y.move.now);
    assert s'.agents[0] == y.agent;
  }

  /* ---- Whole paths ---- */

  /** The positions in the log of the events the loop persisted. */
  function Spots(path: seq<Moment>): seq<nat> {
    if |path| <= 1 then []
    else
      var last := |path| - 1;
      Spots(path[..last]) + if Uttered(path[last].move) != [] then [|LogAt(path[last - 1])|] else []
  }

  /** Did others append the event at position `q`, with a move of theirs? */
  ghost predicate Foreign(path: seq<Moment>, q: nat) {
    exists k :: 0 < k < |path| && path[k].move.Others? && |LogAt(path[k - 1])| <= q < |LogAt(path[k])|
  }

  /** The words are in the log at the spots, in their order, after the `from` events there
      were, and every other event since was appended by others. */
  ghost predicate Stored(path: seq<Moment>, log: seq<Event>, from: nat, spots: seq<nat>, said: seq<EventKind>) {
    |spots| == |said| &&
    (forall k :: 0 <= k < |spots| ==> from <= spots[k] < |log| && log[spots[k]].kind == said[k]) &&
    (forall j, k :: 0 <= j < k < |spots| ==> spots[j] < spots[k]) &&
    forall q: nat :: from <= q < |log| && q !in spots ==> Foreign(path, q)
  }

  lemma {:induction false} SaidIsStored(path: seq<Moment>, scaffold: seq<Snapshot>)
    requires IsPath(path, scaffold) && SystemOk(Alone(path[0].db, path[0].agent, scaffold))
    ensures SystemOk(Alone(Last(path).db, Last(path).agent, scaffold)) && LogAt(path[0]) <= LogAt(Last(path))
    ensures Last(path).agent.run == path[0].agent.run
    ensures Stored(path, LogAt(Last(path)), |LogAt(path[0])|, Spots(path), Said(path))
  {
    hide Leads, SystemOk;
    if |path| > 1 {
      var last := |path| - 1;
      var before := path[..last];
      PathPrefix(path, scaffold);
      SaidIsStored(before, scaffold);
      assert LeadsAt(path, last, scaffold);
      MoveAppends(path[last - 1], path[last], scaffold);
      StoredNext(path, |LogAt(path[0])|);
    }
  }

  lemma PathPrefix(path: seq<Moment>, scaffold: seq<Snapshot>)
    requires IsPath(path, scaffold) && |path| > 1
    ensures IsPath(path[..|path| - 1], scaffold)
  {
    hide Leads;
    var before := path[..|path| - 1];
    forall k | 0 < k < |before| ensures LeadsAt(before, k, scaffold) {
      assert LeadsAt(path, k, scaffold);
    }
  }

  lemma StoredNext(path: seq<Moment>, from: nat)
    requires |path| > 1 && from <= |LogAt(path[|path| - 2])|
    requires var x, y := path[|path| - 2], path[|path| - 1];
             LogAt(x) <= LogAt(y) && (y.move.Own? ==> Appends(LogAt(x), LogAt(y), Uttered(y.move))) &&
             (y.move.Heard? ==> LogAt(y) == LogAt(x))
    requires var before := path[..|path| - 1];
             Stored(before, LogAt(path[|path| - 2]), from, Spots(before), Said(before))
    ensures Stored(path, LogAt(path[|path| - 1]), from, Spots(path), Said(path))
  {
    var last := |path| - 1;
    var before := path[..last];
    var log, log' := LogAt(path[last - 1]), LogAt(path[last]);
    forall q: nat | from <= q < |log'| && q !in Spots(path) ensures Foreign(path, q) {
      if q < |log| {
        assert q !in Spots(before);
        ForeignStays(path, q);
      } else {
        assert path[last].move.Others?;
      }
    }
  }

  lemma ForeignStays(path: seq<Moment>, q: nat)
    requires |path| > 1 && Foreign(path[..|path| - 1], q)
    ensures Foreign(path, q)
  {
    var before := path[..|path| - 1];
    var k :| 0 < k < |before| && before[k].move.Others? && |LogAt(before[k - 1])| <= q < |LogAt(before[k])|;
    assert path[k] == before[k] && path[k - 1] == before[k - 1];
  }
}
