/** The script of the loop: the events that the model's answers alone make it say, in their order
    (internal/agent/agent.go, runPipeline and engineerQA). */
module AgentScript {
  import opened Prelude
  import opened Tables
  import opened AgentModel
  import opened AgentTurns
  import Gate

  /** One delta for each chunk of text. */
  function Deltas(chunks: nat): seq<EventKind> { if chunks == 0 then [] else Deltas(chunks - 1) + [MessageDelta] }

  /** `n` answers from answer `k` on, as they are streamed. */
  function Streamed(model: nat -> Answer, k: nat, n: nat): seq<EventKind> {
    if n == 0 then [] else Streamed(model, k, n - 1) + Deltas(model(k + n - 1).chunks)
  }

  /** A stage in which the model answers with text. */
  function TextWords(a: Answer, s: Stage): seq<EventKind> {
    [StageStarted(s)] + Deltas(a.chunks) + if a.Failure? then [] else [StageArtifact(s)]
  }

  /** The engineer's turn from answer `k` on, as it is streamed. */
  function TurnWords(model: nat -> Answer, k: nat): seq<EventKind> {
    Streamed(model, k, TurnLength(model, k, MAX_TOOL_ROUNDS))
  }

  /** What follows a turn that wrote its file; the first time the engineer's stage is done. */
  function DoneWords(first: bool): seq<EventKind> { [FileWritten] + if first then [StageArtifact(Engineer)] else [] }

  /** The gate looks at it; the first time its stage begins. */
  function FileWords(first: bool): seq<EventKind> { DoneWords(first) + if first then [StageStarted(Qa)] else [] }

  /** The last round, when the gate passes what it wrote, and when it does not. */
  function EndWords(pass: bool): seq<EventKind> {
    if pass then [StageArtifact(Qa), PreviewReady, RunCompleted] else [RunFailed(Some(Qa), "COMPILE_FAILED")]
  }

  /** At most `left` rounds from answer `k` on. */
  ghost function PlanWords(model: nat -> Answer, k: nat, left: nat, first: bool): seq<EventKind>
    requires left > 0
    decreases left
  {
    if TurnFails(model, k) then TurnWords(model, k)
    else
      var pass := Gate.Passes(TurnContent(model, k));
      TurnWords(model, k) + FileWords(first) +
      if pass || left == 1 then EndWords(pass) else PlanWords(model, TurnEnd(model, k), left - 1, false)
  }

  /** Everything the loop says when nothing but the model may fail; a failure of the model
      cuts it short. */
  ghost function Script(model: nat -> Answer): seq<EventKind> {
    [RunStarted] + TextWords(model(0), Pm) +
    if model(0).Failure? then []
    else
      TextWords(model(1), Architect) +
      if model(1).Failure? then []
      else [StageStarted(Engineer)] + PlanWords(model, 2, MAX_AUTO_FIX_ROUNDS + 1, true)
  }

  /* ---- Taking it in parts ---- */

  lemma Regroup(a: seq<EventKind>, b: seq<EventKind>, c: seq<EventKind>)
    ensures (a + b) + c == a + (b + c)
  {
  }

  lemma StreamedNext(said: seq<EventKind>, model: nat -> Answer, k: nat, n: nat)
    ensures said + Streamed(model, k, n) + Deltas(model(k + n).chunks) == said + Streamed(model, k, n + 1)
  {
    Regroup(said, Streamed(model, k, n), Deltas(model(k + n).chunks));
  }

  lemma {:induction false} StreamedNone(said: seq<EventKind>, model: nat -> Answer, k: nat)
    ensures said + Streamed(model, k, 0) == said
  {
  }

  lemma DeltasNext(said: seq<EventKind>, n: nat)
    ensures said + Deltas(n) + [MessageDelta] == said + Deltas(n + 1)
  {
    Regroup(said, Deltas(n), [MessageDelta]);
  }

  /** A text stage, as far as it came. */
  lemma TextSaid(said: seq<EventKind>, a: Answer, s: Stage)
    ensures var streamed := said + [StageStarted(s)] + Deltas(a.chunks);
            said + TextWords(a, s) == if a.Failure? then streamed else streamed + [StageArtifact(s)]
  {
  }

  /** `all` is what was to be said: all of it has been, or in trouble a beginning. */
  predicate Recites(all: seq<EventKind>, said: seq<EventKind>, troubled: bool) {
    said <= all && (!troubled ==> said == all)
  }

  /** Of `all` the rounds from answer `k` on are still to be said. */
  ghost predicate ToSay(model: nat -> Answer, k: nat, left: nat, first: bool, all: seq<EventKind>, said: seq<EventKind>) {
    left > 0 && all == said + PlanWords(model, k, left, first)
  }

  /** After a round with the outcome `ok` and `pass`, with `left` more to come. */
  ghost predicate RoundLeaves(model: nat -> Answer, k: nat, left: nat, all: seq<EventKind>, said: seq<EventKind>,
                              ok: bool, pass: bool, troubled: bool)
  {
    if ok && !pass && left > 0 then ToSay(model, k, left, false, all, said)
    else if ok then all == said + EndWords(pass)
    else Recites(all, said, troubled)
  }

  /** A round of the script has been said, as far as it came: on with the rest, or out. */
  lemma RoundSaid(model: nat -> Answer, k: nat, left: nat, first: bool, all: seq<EventKind>, said: seq<EventKind>,
                  said': seq<EventKind>, ok: bool, pass: bool, troubled: bool)
    requires ToSay(model, k, left, first, all, said)
    requires ok == (!TurnFails(model, k) && !troubled) && (ok ==> pass == Gate.Passes(TurnContent(model, k)))
    requires said' == said + TurnWords(model, k) + if ok then FileWords(first) else []
    ensures RoundLeaves(model, TurnEnd(model, k), left - 1, all, said', ok, pass, troubled)
  {
    if TurnFails(model, k) {
      PartSaid(said, TurnWords(model, k), PlanWords(model, k, left, first));
    } else {
      RoundIs(model, k, left, first);
      if ok {
        MoreSaid(said, TurnWords(model, k), FileWords(first),
                 if pass || left == 1 then EndWords(pass) else PlanWords(model, TurnEnd(model, k), left - 1, false));
      } else {
        PartSaid(said, TurnWords(model, k), PlanWords(model, k, left, first));
      }
    }
  }

  lemma MoreSaid(said: seq<EventKind>, turn: seq<EventKind>, file: seq<EventKind>, rest: seq<EventKind>)
    ensures said + (turn + file + rest) == (said + turn + file) + rest
  {
  }

  lemma PartSaid(said: seq<EventKind>, turn: seq<EventKind>, plan: seq<EventKind>)
    requires turn <= plan
    ensures said + turn + [] <= said + plan && (turn == plan ==> said + turn + [] == said + plan)
  {
  }

  lemma RoundIs(model: nat -> Answer, k: nat, left: nat, first: bool)
    requires left > 0 && !TurnFails(model, k)
    ensures var pass := Gate.Passes(TurnContent(model, k));
            PlanWords(model, k, left, first) ==
            TurnWords(model, k) + FileWords(first) +
            if pass || left == 1 then EndWords(pass) else PlanWords(model, TurnEnd(model, k), left - 1, false)
    ensures TurnWords(model, k) <= PlanWords(model, k, left, first)
  {
  }

  /** The last round of a success, as far as it comes. */
  lemma SuccessSaid(said: seq<EventKind>)
    ensures var recorded := said + [StageArtifact(Qa)];
            Recites(said + EndWords(true), recorded, true) && recorded + [PreviewReady] + [RunCompleted] == said + EndWords(true)
  {
  }

  /** The stages before the engineer's have been said. */
  ghost predicate DesignSaid(model: nat -> Answer, said: seq<EventKind>) {
    Script(model) == said + [StageStarted(Engineer)] + PlanWords(model, 2, MAX_AUTO_FIX_ROUNDS + 1, true)
  }

  /** The script up to where the model fails in its first two answers, or up to the engineer. */
  lemma DesignIs(model: nat -> Answer)
    ensures var pm := [RunStarted] + TextWords(model(0), Pm);
            var both := pm + TextWords(model(1), Architect);
            [RunStarted] <= Script(model) &&
            if model(0).Failure? then Script(model) == pm
            else if model(1).Failure? then Script(model) == both
            else DesignSaid(model, both)
  {
    var pm, arch := [RunStarted] + TextWords(model(0), Pm), TextWords(model(1), Architect);
    var rest := [StageStarted(Engineer)] + PlanWords(model, 2, MAX_AUTO_FIX_ROUNDS + 1, true);
    assert pm + [] == pm;
    assert arch + [] == arch;
    Regroup(pm, arch, rest);
    Regroup(pm + arch, [StageStarted(Engineer)], PlanWords(model, 2, MAX_AUTO_FIX_ROUNDS + 1, true));
  }

  lemma EngineerToSay(model: nat -> Answer, said: seq<EventKind>)
    requires DesignSaid(model, said)
    ensures ToSay(model, 2, MAX_AUTO_FIX_ROUNDS + 1, true, Script(model), said + [StageStarted(Engineer)])
  {
  }

  /** A beginning of `all` has been said, and then that the run has failed in the stage. */
  predicate CutShort(all: seq<EventKind>, said: seq<EventKind>, stage: Option<Stage>) {
    said != [] && said[..|said| - 1] <= all && said[|said| - 1].RunFailed? && said[|said| - 1].failedStage == stage
  }

  lemma FailureIsSaid(all: seq<EventKind>, said: seq<EventKind>, stage: Option<Stage>, code: string)
    requires said <= all
    ensures CutShort(all, said + [RunFailed(stage, code)], stage)
  {
  }
}
