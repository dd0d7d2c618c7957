/** What the loop's stages leave behind: a succeeded row with an artifact for each stage it
    has completed, and with all four a consistent project. */
module AgentStages {
  import opened Prelude
  import opened Tables
  import opened Workflows
  import opened Operations
  import opened Invariant
  import opened RunSteps
  import opened Reading
  import opened ReadingLaws

  const ALL_STAGES: set<Stage> := {Pm, Architect, Engineer, Qa}

  /** The last attempt has a succeeded row and an artifact for the stage. */
  ghost predicate StageShown(run: Run, s: Stage) {
    var n := |run.attempts|;
    (n, s) in run.stages && run.stages[(n, s)].status == Done &&
    exists x :: x in run.artifacts && x.stage == s && x.attempt + 1 == n
  }

  ghost predicate Showing(run: Run, done: set<Stage>) { forall s: Stage :: s in done ==> StageShown(run, s) }

  lemma SameShowing(a: Run, b: Run, done: set<Stage>)
    requires SameShown(a, b) && Showing(a, done)
    ensures Showing(b, done)
  {
    forall s: Stage | s in done ensures StageShown(b, s) {
      assert StageShown(a, s);
    }
  }

  /** Without a disruptive event, what is shown stays shown. */
  lemma KeptShowing(a: Run, b: Run, done: set<Stage>)
    requires KeepsDone(a, b) && |b.attempts| == |a.attempts| && Showing(a, done)
    ensures Showing(b, done)
  {
    forall s: Stage | s in done ensures StageShown(b, s) {
      assert StageShown(a, s);
    }
  }

  /** May the event come while the stages `done` are done? */
  predicate Harmless(kind: EventKind, done: set<Stage>) {
    (kind.StageStarted? ==> kind.stage !in done) && (kind.RunFailed? ==> kind.failedStage == None)
  }

  lemma EventShowing(run: Run, kind: EventKind, now: Time, done: set<Stage>)
    requires RunOk(run) && Showing(run, done) && Harmless(kind, done)
    ensures Showing(EventRow(run, kind, now), done)
  {
    var row := EventRow(run, kind, now);
    forall s: Stage | s in done ensures StageShown(row, s) {
      assert StageShown(run, s);
      EventKeepsRow(run, kind, now, s);
    }
  }

  lemma EventKeepsRow(run: Run, kind: EventKind, now: Time, s: Stage)
    requires run.attempts != [] && (kind.StageStarted? ==> kind.stage != s)
    requires kind.RunFailed? ==> kind.failedStage == None
    requires (|run.attempts|, s) in run.stages && run.stages[(|run.attempts|, s)].status == Done
    ensures var row := EventRow(run, kind, now);
            row.artifacts == run.artifacts && row.attempts == run.attempts &&
            (|run.attempts|, s) in row.stages && row.stages[(|run.attempts|, s)].status == Done
  {
  }

  lemma ArtifactShowing(run: Run, s: Stage, ref: string, now: Time, done: set<Stage>)
    requires RunOk(run) && Showing(run, done)
    ensures Showing(ArtifactRow(run, |run.attempts| - 1, s, ref, now), done + {s})
  {
    var n := |run.attempts|;
    var row := ArtifactRow(run, n - 1, s, ref, now);
    assert row.artifacts == run.artifacts + [Artifact(n - 1, s, ref, now)] && row.attempts == run.attempts;
    forall t: Stage | t in done + {s} ensures StageShown(row, t) {
      if t == s {
        assert row.artifacts[|run.artifacts|] == Artifact(n - 1, s, ref, now);
      } else {
        assert StageShown(run, t);
        var x :| x in run.artifacts && x.stage == t && x.attempt + 1 == n;
        assert x in row.artifacts;
      }
    }
  }

  /** With all four stages shown, every stage of the run is proven. */
  lemma AllShownIsProven(run: Run)
    requires RunOk(run) && Showing(run, ALL_STAGES)
    ensures AllProven(run)
  {
    var n := |run.attempts|;
    assert (n, Pm) in run.stages;
    assert LatestAttempt(run.stages) == n;
    forall s: Stage ensures StageProven(run, s) {
      assert s in ALL_STAGES by {
        match s case Pm => case Architect => case Engineer => case Qa =>
      }
      assert StageShown(run, s);
    }
  }
}
