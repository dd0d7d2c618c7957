/** The script of the loop read without its deltas: the stages, files and outcomes a client sees,
    in their order. */
module AgentMilestones {
  import opened Prelude
  import opened Tables
  import opened AgentModel
  import opened AgentTurns
  import opened AgentScript
  import Gate

  /** The words that are no deltas. */
  function Milestones(words: seq<EventKind>): seq<EventKind> {
    if words == [] then []
    else
      var last := |words| - 1;
      Milestones(words[..last]) + if words[last] == MessageDelta then [] else [words[last]]
  }

  /** How many deltas there are. */
  function DeltasIn(words: seq<EventKind>): nat {
    if words == [] then 0
    else var last := |words| - 1; DeltasIn(words[..last]) + if words[last] == MessageDelta then 1 else 0
  }

  /** The chunks of answers `k` up to, not including, `n`. */
  function Chunks(model: nat -> Answer, k: nat, n: nat): nat
    requires k <= n
    decreases n
  {
    if k == n then 0 else Chunks(model, k, n - 1) + model(n - 1).chunks
  }

  lemma {:induction false} WordsJoin(u: seq<EventKind>, v: seq<EventKind>)
    ensures Milestones(u + v) == Milestones(u) + Milestones(v) && DeltasIn(u + v) == DeltasIn(u) + DeltasIn(v)
    decreases |v|
  {
    if v == [] {
      assert u + v == u;
    } else {
      var last := |v| - 1;
      assert (u + v)[..|u| + last] == u + v[..last];
      WordsJoin(u, v[..last]);
    }
  }

  /** `words` are `n` deltas and otherwise `milestones`. */
  ghost predicate Reads(words: seq<EventKind>, milestones: seq<EventKind>, n: nat) {
    Milestones(words) == milestones && DeltasIn(words) == n
  }

  lemma ReadsJoin(u: seq<EventKind>, v: seq<EventKind>, a: seq<EventKind>, b: seq<EventKind>, m: nat, n: nat)
    requires Reads(u, a, m) && Reads(v, b, n)
    ensures Reads(u + v, a + b, m + n)
  {
    WordsJoin(u, v);
  }

  lemma {:induction false} PlainReads(words: seq<EventKind>)
    requires forall i :: 0 <= i < |words| ==> words[i] != MessageDelta
    ensures Reads(words, words, 0)
    decreases |words|
  {
    if words != [] {
      var last := |words| - 1;
      PlainReads(words[..last]);
      assert words == words[..last] + [words[last]];
    }
  }

  lemma {:induction false} DeltasRead(n: nat)
    ensures Reads(Deltas(n), [], n)
  {
    if n > 0 {
      DeltasRead(n - 1);
      assert Deltas(n)[..|Deltas(n)| - 1] == Deltas(n - 1);
    }
  }

  lemma {:induction false} ChunksSplit(model: nat -> Answer, k: nat, m: nat, n: nat)
    requires k <= m <= n
    ensures Chunks(model, k, n) == Chunks(model, k, m) + Chunks(model, m, n)
    decreases n
  {
    if m < n {
      ChunksSplit(model, k, m, n - 1);
    }
  }

  lemma {:induction false} StreamedReads(model: nat -> Answer, k: nat, n: nat)
    ensures Reads(Streamed(model, k, n), [], Chunks(model, k, k + n))
    decreases n
  {
    if n > 0 {
      StreamedReads(model, k, n - 1);
      DeltasRead(model(k + n - 1).chunks);
      ReadsJoin(Streamed(model, k, n - 1), Deltas(model(k + n - 1).chunks), [], [], Chunks(model, k, k + n - 1),
          model(k + n - 1).chunks);
    }
  }

  lemma TextReads(a: Answer, s: Stage)
    ensures Reads(TextWords(a, s), [StageStarted(s)] + if a.Failure? then [] else [StageArtifact(s)], a.chunks)
  {
    var end := if a.Failure? then [] else [StageArtifact(s)];
    PlainReads([StageStarted(s)]);
    DeltasRead(a.chunks);
    PlainReads(end);
    ReadsJoin([StageStarted(s)], Deltas(a.chunks), [StageStarted(s)], [], 0, a.chunks);
    ReadsJoin([StageStarted(s)] + Deltas(a.chunks), end, [StageStarted(s)] + [], end, a.chunks, 0);
    assert [StageStarted(s)] + [] == [StageStarted(s)];
  }

  /** What is said when a file has been written: the first time that the engineer's stage is done
      and the gate's begins. */
  function FilesSaid(n: nat, first: bool): seq<EventKind> {
    if n == 0 then []
    else [FileWritten] + (if first then [StageArtifact(Engineer), StageStarted(Qa)] else []) + FilesSaid(n - 1, false)
  }

  /** How the engineer's rounds end: cut short by the model, passed or given up. */
  ghost function Ending(p: Plan): seq<EventKind> {
    if p.failed then []
    else if PlanPasses(p) then [StageArtifact(Qa), PreviewReady, RunCompleted]
    else [RunFailed(Some(Qa), "COMPILE_FAILED")]
  }

  /** A turn that wrote its file. */
  lemma {:induction false} RoundReads(model: nat -> Answer, k: nat, first: bool)
    ensures Reads(TurnWords(model, k) + FileWords(first), FileWords(first), Chunks(model, k, TurnEnd(model, k)))
  {
    hide Reads, Chunks, TurnLength;
    var n := TurnLength(model, k, MAX_TOOL_ROUNDS);
    StreamedReads(model, k, n);
    PlainReads(FileWords(first));
    ReadsJoin(TurnWords(model, k), FileWords(first), [], FileWords(first), Chunks(model, k, k + n), 0);
    assert [] + FileWords(first) == FileWords(first);
  }

  lemma {:induction false} LastRoundReads(model: nat -> Answer, k: nat, first: bool, pass: bool)
    ensures Reads(TurnWords(model, k) + FileWords(first) + EndWords(pass), FilesSaid(1, first) + EndWords(pass),
                  Chunks(model, k, TurnEnd(model, k)))
  {
    hide Reads, Chunks, TurnWords, FileWords, EndWords;
    RoundReads(model, k, first);
    assert Reads(EndWords(pass), EndWords(pass), 0) by { EndIsPlain(pass); PlainReads(EndWords(pass)); }
    ReadsJoin(TurnWords(model, k) + FileWords(first), EndWords(pass), FileWords(first), EndWords(pass),
              Chunks(model, k, TurnEnd(model, k)), 0);
    OneFile(first);
  }

  lemma EndIsPlain(pass: bool)
    ensures forall i :: 0 <= i < |EndWords(pass)| ==> EndWords(pass)[i] != MessageDelta
  {
  }

  lemma {:induction false} OneFile(first: bool)
    ensures FilesSaid(1, first) == FileWords(first)
  {
    assert FilesSaid(0, false) == [];
  }

  lemma {:induction false} MoreFiles(n: nat, first: bool, end: seq<EventKind>)
    ensures FileWords(first) + (FilesSaid(n, false) + end) == FilesSaid(n + 1, first) + end
  {
    assert FilesSaid(n + 1, first) == FileWords(first) + FilesSaid(n, false);
  }

  lemma {:induction false} PlanReads(model: nat -> Answer, k: nat, left: nat, first: bool)
    requires left > 0
    ensures var p := PlanFrom(model, k, left);
            k <= p.next && Reads(PlanWords(model, k, left, first), FilesSaid(|p.contents|, first) + Ending(p), Chunks(model, k, p.next))
    decreases left
  {
    hide Reads, Chunks, TurnLength, TurnContent, FilesSaid, TurnWords, FileWords;
    var p := PlanFrom(model, k, left);
    if TurnFails(model, k) {
      StreamedReads(model, k, TurnLength(model, k, MAX_TOOL_ROUNDS));
      FailedTurn(model, k, first);
    } else {
      PlanStep(model, k, left);
      var pass := Gate.Passes(TurnContent(model, k));
      if pass || left == 1 {
        LastRoundReads(model, k, first, pass);
      } else {
        LongerPlan(model, k, left, first);
      }
    }
  }

  lemma {:induction false} FailedTurn(model: nat -> Answer, k: nat, first: bool)
    ensures Reads(TurnWords(model, k), FilesSaid(0, first) + [], Chunks(model, k, TurnEnd(model, k)))
  {
    hide Reads, Chunks, TurnLength;
    StreamedReads(model, k, TurnLength(model, k, MAX_TOOL_ROUNDS));
    assert FilesSaid(0, first) + [] == [];
  }

  lemma {:induction false} LongerPlan(model: nat -> Answer, k: nat, left: nat, first: bool)
    requires left > 1 && !TurnFails(model, k) && !Gate.Passes(TurnContent(model, k))
    ensures var p := PlanFrom(model, k, left);
            k <= p.next && Reads(PlanWords(model, k, left, first), FilesSaid(|p.contents|, first) + Ending(p), Chunks(model, k, p.next))
    decreases left, 0
  {
    hide Reads, Chunks, TurnContent, FilesSaid, TurnWords, FileWords, PlanFrom, PlanWords, Ending;
    var end := TurnEnd(model, k);
    LongerWords(model, k, left, first);
    var p, rest := PlanFrom(model, k, left), PlanFrom(model, end, left - 1);
    PlanStep(model, k, left);
    PlanReads(model, end, left - 1, false);
    ChunksSplit(model, k, end, rest.next);
    RoundReads(model, k, first);
    ReadsJoin(TurnWords(model, k) + FileWords(first), PlanWords(model, end, left - 1, false),
              FileWords(first), FilesSaid(|rest.contents|, false) + Ending(rest), Chunks(model, k, end), Chunks(model, end, rest.next));
    SameEnding(p, rest, TurnContent(model, k));
    MoreFiles(|rest.contents|, first, Ending(rest));
  }

  lemma LongerWords(model: nat -> Answer, k: nat, left: nat, first: bool)
    requires left > 1 && !TurnFails(model, k) && !Gate.Passes(TurnContent(model, k))
    ensures PlanWords(model, k, left, first) ==
            TurnWords(model, k) + FileWords(first) + PlanWords(model, TurnEnd(model, k), left - 1, false)
  {
    hide TurnWords, FileWords, TurnContent, TurnFails;
  }

  lemma SameEnding(p: Plan, rest: Plan, content: string)
    requires p.contents == [content] + rest.contents && p.failed == rest.failed && !Gate.Passes(content)
    ensures Ending(p) == Ending(rest) && |p.contents| == |rest.contents| + 1
  {
    hide Gate.Passes;
    assert rest.contents != [] ==> p.contents[|p.contents| - 1] == rest.contents[|rest.contents| - 1];
  }

  /** The first stage, as far as it comes. */
  lemma FirstStageReads(model: nat -> Answer)
    ensures Reads([RunStarted] + TextWords(model(0), Pm),
                  [RunStarted, StageStarted(Pm)] + if model(0).Failure? then [] else [StageArtifact(Pm)], model(0).chunks)
  {
    hide Reads, TextWords;
    var a := [StageStarted(Pm)] + if model(0).Failure? then [] else [StageArtifact(Pm)];
    PlainReads([RunStarted]);
    TextReads(model(0), Pm);
    ReadsJoin([RunStarted], TextWords(model(0), Pm), [RunStarted], a, 0, model(0).chunks);
    assert [RunStarted] + a == [RunStarted, StageStarted(Pm)] + if model(0).Failure? then [] else [StageArtifact(Pm)];
  }

  /** The first two stages, as far as the second one comes. */
  lemma SecondStageReads(model: nat -> Answer)
    requires !model(0).Failure?
    ensures Reads([RunStarted] + TextWords(model(0), Pm) + TextWords(model(1), Architect),
                  [RunStarted, StageStarted(Pm), StageArtifact(Pm), StageStarted(Architect)] +
                    if model(1).Failure? then [] else [StageArtifact(Architect)],
                  model(0).chunks + model(1).chunks)
  {
    hide Reads, TextWords;
    var a := [StageStarted(Architect)] + if model(1).Failure? then [] else [StageArtifact(Architect)];
    FirstStageReads(model);
    TextReads(model(1), Architect);
    ReadsJoin([RunStarted] + TextWords(model(0), Pm), TextWords(model(1), Architect),
              [RunStarted, StageStarted(Pm)] + [StageArtifact(Pm)], a, model(0).chunks, model(1).chunks);
    assert [RunStarted, StageStarted(Pm)] + [StageArtifact(Pm)] + a ==
           [RunStarted, StageStarted(Pm), StageArtifact(Pm), StageStarted(Architect)] +
             if model(1).Failure? then [] else [StageArtifact(Architect)];
  }

  /** All stages, when the first two answers are no failures. */
  lemma EngineerReads(model: nat -> Answer)
    requires !model(0).Failure? && !model(1).Failure?
    ensures var p := PlanFrom(model, 2, 3);
            2 <= p.next &&
            Reads(Script(model), [RunStarted, StageStarted(Pm), StageArtifact(Pm), StageStarted(Architect), StageArtifact(Architect),
                                  StageStarted(Engineer)] + (FilesSaid(|p.contents|, true) + Ending(p)), Chunks(model, 0, p.next))
  {
    hide Reads, TextWords, PlanWords, PlanFrom, Chunks, FilesSaid, Ending;
    var p, plan := PlanFrom(model, 2, 3), PlanWords(model, 2, 3, true);
    var design := [RunStarted] + TextWords(model(0), Pm) + TextWords(model(1), Architect);
    var said := [RunStarted, StageStarted(Pm), StageArtifact(Pm), StageStarted(Architect)] + [StageArtifact(Architect)];
    SecondStageReads(model);
    PlainReads([StageStarted(Engineer)]);
    ReadsJoin(design, [StageStarted(Engineer)], said, [StageStarted(Engineer)], model(0).chunks + model(1).chunks, 0);
    PlanReads(model, 2, 3, true);
    ReadsJoin(design + [StageStarted(Engineer)], plan, said + [StageStarted(Engineer)], FilesSaid(|p.contents|, true) + Ending(p),
              model(0).chunks + model(1).chunks, Chunks(model, 2, p.next));
    TwoChunks(model);
    ChunksSplit(model, 0, 2, p.next);
    assert design + [StageStarted(Engineer)] + plan == Script(model);
    assert said + [StageStarted(Engineer)] ==
           [RunStarted, StageStarted(Pm), StageArtifact(Pm), StageStarted(Architect), StageArtifact(Architect), StageStarted(Engineer)];
  }

  lemma TwoChunks(model: nat -> Answer)
    ensures Chunks(model, 0, 2) == model(0).chunks + model(1).chunks
  {
    assert Chunks(model, 0, 1) == Chunks(model, 0, 0) + model(0).chunks;
  }

  /** What a client sees of a run in which nothing but the model fails, apart from the deltas: the
      four stages in their order, a file for each round, and the outcome; and as many deltas as
      the answers taken have chunks. */
  lemma ScriptReads(model: nat -> Answer)
    ensures var s, p := Script(model), PlanFrom(model, 2, 3);
            if model(0).Failure? then
              Reads(s, [RunStarted, StageStarted(Pm)], model(0).chunks)
            else if model(1).Failure? then
              Reads(s, [RunStarted, StageStarted(Pm), StageArtifact(Pm), StageStarted(Architect)],
                    model(0).chunks + model(1).chunks)
            else
              2 <= p.next &&
              Reads(s, [RunStarted, StageStarted(Pm), StageArtifact(Pm), StageStarted(Architect), StageArtifact(Architect),
                        StageStarted(Engineer)] + (FilesSaid(|p.contents|, true) + Ending(p)), Chunks(model, 0, p.next))
  {
    hide Reads, PlanWords, TextWords, Chunks, PlanFrom, Ending, FilesSaid;
    if model(0).Failure? {
      FirstStageReads(model);
      assert Script(model) == [RunStarted] + TextWords(model(0), Pm);
      assert [RunStarted, StageStarted(Pm)] + [] == [RunStarted, StageStarted(Pm)];
    } else if model(1).Failure? {
      SecondStageReads(model);
      assert Script(model) == [RunStarted] + TextWords(model(0), Pm) + TextWords(model(1), Architect);
      assert [RunStarted, StageStarted(Pm), StageArtifact(Pm), StageStarted(Architect)] + [] ==
             [RunStarted, StageStarted(Pm), StageArtifact(Pm), StageStarted(Architect)];
    } else {
      EngineerReads(model);
    }
  }
}
