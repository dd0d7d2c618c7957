/** The words of the loop: the events it tries to persist, in their order. */
module AgentWords {
  import opened Prelude
  import opened Tables
  import opened Systems
  import opened AgentModel
  import opened AgentPaths
  import opened AgentBooks

  /** The words after an action, lost or not. */
  function Then(words: seq<EventKind>, action: Action): seq<EventKind> {
    if action.Emit? || action.LastWords? then words + [action.kind] else words
  }

  function WordsAfter(words: seq<EventKind>, move: Move): seq<EventKind> {
    if move.Own? then Then(words, move.action) else words
  }

  function WordsOf(path: seq<Moment>): seq<EventKind> {
    if |path| <= 1 then [] else WordsAfter(WordsOf(path[..|path| - 1]), path[|path| - 1].move)
  }

  lemma {:induction false} WordsExtend(path: seq<Moment>, y: Moment)
    requires path != []
    ensures WordsOf(path + [y]) == WordsAfter(WordsOf(path), y.move)
  {
    assert (path + [y])[..|path|] == path;
  }

  lemma {:induction false} WordsGrow(path: seq<Moment>, q: seq<Moment>)
    requires path != [] && path <= q && |q| == |path| + 1
    ensures WordsOf(q) == WordsAfter(WordsOf(path), Last(q).move)
  {
    WordsExtend(path, Last(q));
    assert q == path + [Last(q)];
  }

  /** Without a lost call all words are said. */
  lemma {:induction false} AllIsSaid(path: seq<Moment>)
    requires !HasLost(path)
    ensures Said(path) == WordsOf(path)
  {
    if |path| > 1 {
      LostNext(path);
      AllIsSaid(path[..|path| - 1]);
      assert Said(path[..|path| - 1]) + [] == Said(path[..|path| - 1]);
    }
  }
}
