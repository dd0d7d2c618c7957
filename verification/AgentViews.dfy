/** A run of the whole system as one of its agents sees it.  What happens between two steps
    of the agent is what the loop tolerates from others, and the agent's own steps and what
    lies between them make a path. */
module AgentViews {
  import opened Prelude
  import opened Tables
  import opened Operations
  import opened Invariant
  import opened Systems
  import opened SystemSafety
  import opened Interference
  import opened AgentModel
  import opened AgentPaths

  ghost predicate StepAt(states: seq<System>, steps: seq<Step>, k: nat)
    requires k < |steps| && |states| == |steps| + 1
  {
    Next(states[k], steps[k], states[k + 1])
  }

  /** A stretch of the system: each state follows from the one before by the step. */
  ghost predicate IsStretch(states: seq<System>, steps: seq<Step>) {
    |states| == |steps| + 1 && SystemOk(states[0]) && forall k :: 0 <= k < |steps| ==> StepAt(states, steps, k)
  }

  lemma {:induction false} StretchIsSafe(states: seq<System>, steps: seq<Step>, k: nat)
    requires IsStretch(states, steps) && k < |states|
    ensures SystemOk(states[k]) && states[k].scaffold == states[0].scaffold
  {
    hide Acts, SystemOk, WriteFile;
    if k > 0 {
      StretchIsSafe(states, steps, k - 1);
      assert StepAt(states, steps, k - 1);
      NextKeeps(states[k - 1], steps[k - 1], states[k]);
    }
  }

  /* ---- What others do ---- */

  /** Is the step somebody else's, and no restart? */
  predicate NotBy(step: Step, id: nat) { !step.Restart? && (step.Act? ==> step.agent != id) }

  /** One step of others is tolerable, for a live agent as for one that has ended. */
  lemma StepIsTolerable(s: System, step: Step, s': System, id: nat)
    requires SystemOk(s) && Next(s, step, s') && id in s.agents && NotBy(step, id)
    ensures id in s'.agents && s'.agents[id] == s.agents[id]
    ensures Tolerable(s.db, s'.db, s.agents[id], ReadOnly(s.scaffold))
  {
    hide Effect, Inv, Grows, Undisturbed, AgentOk;
    NextKeeps(s, step, s');
    if s.agents[id].Live() {
      OthersDoNotDisturb(s, step, s', id);
    }
  }

  lemma TolerableTransitive(a: Db, b: Db, c: Db, agent: Agent, ro: FileSet)
    requires Tolerable(a, b, agent, ro) && Tolerable(b, c, agent, ro)
    ensures Tolerable(a, c, agent, ro)
  {
    hide Inv, Undisturbed, Grows;
    GrowsTransitive(a, b, c);
    if agent.Live() {
      UndisturbedTransitive(a, b, c, agent.run);
    }
  }

  lemma TolerableReflexive(s: System, id: nat)
    requires SystemOk(s) && id in s.agents
    ensures Tolerable(s.db, s.db, s.agents[id], ReadOnly(s.scaffold))
  {
    hide VersionOk, Grows, RunOk;
    GrowsReflexive(s.db);
    assert AgentOk(s.db, s.agents[id]);
    if s.agents[id].Live() {
      UndisturbedReflexive(s.db, s.agents[id].run);
    }
  }

  /** Agent `id` is as it was, and what has happened to the store is tolerable to it. */
  ghost predicate ToleratedAt(states: seq<System>, id: nat, k: nat)
    requires states != [] && id in states[0].agents && k < |states|
  {
    id in states[k].agents && states[k].agents[id] == states[0].agents[id] &&
    Tolerable(states[0].db, states[k].db, states[0].agents[id], ReadOnly(states[0].scaffold))
  }

  lemma ToleratedFirst(states: seq<System>, id: nat)
    requires states != [] && SystemOk(states[0]) && id in states[0].agents
    ensures ToleratedAt(states, id, 0)
  {
    hide Tolerable, SystemOk;
    TolerableReflexive(states[0], id);
  }

  lemma ToleratedNext(states: seq<System>, steps: seq<Step>, id: nat, k: nat)
    requires IsStretch(states, steps) && id in states[0].agents && k < |steps| && NotBy(steps[k], id)
    requires ToleratedAt(states, id, k)
    ensures ToleratedAt(states, id, k + 1)
  {
    hide Next, Tolerable, SystemOk;
    StretchIsSafe(states, steps, k);
    assert StepAt(states, steps, k);
    StepIsTolerable(states[k], steps[k], states[k + 1], id);
    TolerableTransitive(states[0].db, states[k].db, states[k + 1].db, states[0].agents[id], ReadOnly(states[0].scaffold));
  }

  /** Whatever the rest of the system does between two steps of an agent, in any number of
      steps without a restart, is what the loop expects of others while it waits. */
  lemma OthersAreTolerable(states: seq<System>, steps: seq<Step>, id: nat, k: nat)
    requires IsStretch(states, steps) && k < |states| && id in states[0].agents
    requires forall j :: 0 <= j < |steps| ==> NotBy(steps[j], id)
    ensures ToleratedAt(states, id, k)
  {
    hide StepAt, ToleratedAt, SystemOk;
    ToleratedFirst(states, id);
    for j := 0 to k
      invariant ToleratedAt(states, id, j)
    {
      ToleratedNext(states, steps, id, j);
    }
  }

  /* ---- The agent's path ---- */

  ghost predicate Present(states: seq<System>, id: nat) { forall k :: 0 <= k < |states| ==> id in states[k].agents }

  /** The step as a move of agent `id`, or of others. */
  function MoveOf(step: Step, id: nat): Move {
    if step.Act? && step.agent == id then Own(step.action, step.lost, step.now) else Others
  }

  /** The stretch as agent `id` sees it. */
  ghost function View(states: seq<System>, steps: seq<Step>, id: nat): seq<Moment>
    requires |states| == |steps| + 1 && Present(states, id)
  {
    seq(|states|, k requires 0 <= k < |states| =>
      Moment(states[k].db, states[k].agents[id], if k == 0 then Others else MoveOf(steps[k - 1], id)))
  }

  /** An agent's action is the same in the whole system and alone. */
  lemma ActsAlone(s: System, id: nat, action: Action, lost: bool, now: Time, s': System)
    requires Acts(s, id, action, lost, now, s') && s'.scaffold == s.scaffold && id in s'.agents
    ensures Acts(Alone(s.db, s.agents[id], s.scaffold), 0, action, lost, now, Alone(s'.db, s'.agents[id], s'.scaffold))
  {
    hide AppendEvent;
    var a := s.agents[id];
    var one := Alone(s.db, a, s.scaffold);
    assert !action.Leave?;
    assert Effect(one, a, action, lost, now) == Effect(s, a, action, lost, now);
    assert map[0 := a][0 := s'.agents[id]] == map[0 := s'.agents[id]];
  }

  /** `x` is the state as agent `id` sees it. */
  ghost predicate Sees(x: Moment, s: System, id: nat) { id in s.agents && x.db == s.db && x.agent == s.agents[id] }

  lemma StepLeads(s: System, step: Step, s': System, id: nat, x: Moment, y: Moment)
    requires SystemOk(s) && Next(s, step, s') && Sees(x, s, id) && Sees(y, s', id) && y.move == MoveOf(step, id)
    ensures Leads(x, y, s.scaffold)
  {
    hide Acts, WriteFile, Tolerable, SystemOk;
    if step.Act? && step.agent == id {
      ActsAlone(s, id, step.action, step.lost, step.now, s');
    } else {
      StepIsTolerable(s, step, s', id);
    }
  }

  lemma StepAtLeads(states: seq<System>, steps: seq<Step>, id: nat, k: nat, x: Moment, y: Moment)
    requires IsStretch(states, steps) && k < |steps|
    requires Sees(x, states[k], id) && Sees(y, states[k + 1], id) && y.move == MoveOf(steps[k], id)
    ensures Leads(x, y, states[0].scaffold)
  {
    hide Next, Leads, SystemOk;
    StretchIsSafe(states, steps, k);
    assert StepAt(states, steps, k);
    StepLeads(states[k], steps[k], states[k + 1], id, x, y);
  }

  lemma ViewLeads(states: seq<System>, steps: seq<Step>, id: nat, k: nat)
    requires IsStretch(states, steps) && Present(states, id) && 0 < k < |states|
    ensures LeadsAt(View(states, steps, id), k, states[0].scaffold)
  {
    hide StepAt, Leads, SystemOk;
    var path := View(states, steps, id);
    StepAtLeads(states, steps, id, k - 1, path[k - 1], path[k]);
  }

  /** Every stretch of the system in which an agent is present is a path of that agent, so
      the laws of paths hold of every agent in every run of the system. */
  lemma RunsArePaths(states: seq<System>, steps: seq<Step>, id: nat)
    requires IsStretch(states, steps) && Present(states, id)
    ensures IsPath(View(states, steps, id), states[0].scaffold)
  {
    hide StepAt, LeadsAt, SystemOk;
    forall k | 0 < k < |states| ensures LeadsAt(View(states, steps, id), k, states[0].scaffold) {
      ViewLeads(states, steps, id, k);
    }
  }
}
