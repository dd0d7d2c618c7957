/** What the model's answers, taken in their order, make the loop write. */
module AgentTurns {
  import opened Prelude
  import opened AgentModel
  import Gate

  /** Is the model owed results for its tool calls, so that the turn goes on? */
  predicate IsOwed(a: Answer) { a.Answer? && a.toolUse && exists c | c in a.calls :: c.isWriteFile }

  function Answers(model: nat -> Answer, k: nat, n: nat): seq<Answer> { seq(n, i requires 0 <= i < n => model(k + i)) }

  /** How many answers the turn from answer `k` on takes, at most `left`. */
  function TurnLength(model: nat -> Answer, k: nat, left: nat): (n: nat)
    requires left > 0
    ensures 1 <= n <= left && (forall i :: k <= i < k + n - 1 ==> IsOwed(model(i)))
    ensures n < left ==> !IsOwed(model(k + n - 1))
    decreases left
  {
    if left == 1 || !IsOwed(model(k)) then 1 else 1 + TurnLength(model, k + 1, left - 1)
  }

  lemma {:induction false} TurnLengthIs(model: nat -> Answer, k: nat, left: nat, n: nat)
    requires 1 <= n <= left && (forall i :: k <= i < k + n - 1 ==> IsOwed(model(i)))
    requires n < left ==> !IsOwed(model(k + n - 1))
    ensures TurnLength(model, k, left) == n
    decreases left
  {
    if n > 1 {
      assert IsOwed(model(k));
      TurnLengthIs(model, k + 1, left - 1, n - 1);
    }
  }

  /** The answer after the turn from answer `k` on. */
  function TurnEnd(model: nat -> Answer, k: nat): nat { k + TurnLength(model, k, MAX_TOOL_ROUNDS) }

  /** A turn goes on exactly as long as the model is owed results, and takes at most eight answers. */
  lemma TurnTakes(model: nat -> Answer, k: nat, n: nat)
    requires 1 <= n <= 8 && (forall i :: k <= i < k + n - 1 ==> IsOwed(model(i)))
    requires n < 8 ==> !IsOwed(model(k + n - 1))
    ensures TurnEnd(model, k) == k + n
  {
    TurnLengthIs(model, k, MAX_TOOL_ROUNDS, n);
  }

  /** A turn fails if its last answer is a failure; the others were answers. */
  predicate TurnFails(model: nat -> Answer, k: nat) { model(TurnEnd(model, k) - 1).Failure? }

  /** The last accepted write of the turn. */
  function TurnContent(model: nat -> Answer, k: nat): string {
    LastWrite(Executed(Answers(model, k, TurnLength(model, k, MAX_TOOL_ROUNDS))))
  }

  /** `n` answers into the turn: whether the model is owed more, and what it has written. */
  ghost predicate TurnSoFar(model: nat -> Answer, k: nat, n: nat, more: bool, ok: bool, content: string) {
    (forall i :: k <= i < k + n - 1 ==> IsOwed(model(i))) &&
    (if n == 0 then more && ok else more == IsOwed(model(k + n - 1)) && ok == !model(k + n - 1).Failure?) &&
    (ok ==> WroteSoFar(model, k, n, content))
  }

  predicate WroteSoFar(model: nat -> Answer, k: nat, n: nat, content: string) {
    content == LastWrite(Executed(Answers(model, k, n)))
  }

  lemma AnswersNext(model: nat -> Answer, k: nat, n: nat)
    ensures Answers(model, k, n + 1) == Answers(model, k, n) + [model(k + n)]
  {
  }

  /** One more answer in the turn. */
  lemma TurnGoesOn(model: nat -> Answer, k: nat, n: nat, content: string, content': string)
    requires TurnSoFar(model, k, n, true, true, content)
    requires model(k + n).Answer? ==> content' == LastWrite(Executed(Answers(model, k, n) + [model(k + n)]))
    ensures TurnSoFar(model, k, n + 1, IsOwed(model(k + n)), !model(k + n).Failure?, content')
  {
    AnswersNext(model, k, n);
  }

  lemma TurnBegins(model: nat -> Answer, k: nat)
    ensures TurnSoFar(model, k, 0, true, true, "")
  {
  }

  lemma TurnIsOver(model: nat -> Answer, k: nat, n: nat, more: bool, ok: bool, content: string)
    requires TurnSoFar(model, k, n, more, ok, content) && 0 < n <= MAX_TOOL_ROUNDS && (n == MAX_TOOL_ROUNDS || !more)
    ensures k + n == TurnEnd(model, k) && ok == !TurnFails(model, k) && (ok ==> content == TurnContent(model, k))
  {
    TurnStops(model, k, n, more, ok, content);
    if ok {
      TurnContentIs(model, k, n, content);
    }
  }

  lemma {:induction false} TurnStops(model: nat -> Answer, k: nat, n: nat, more: bool, ok: bool, content: string)
    requires TurnSoFar(model, k, n, more, ok, content) && 0 < n <= MAX_TOOL_ROUNDS && (n == MAX_TOOL_ROUNDS || !more)
    ensures TurnLength(model, k, MAX_TOOL_ROUNDS) == n
  {
    TurnLengthIs(model, k, MAX_TOOL_ROUNDS, n);
  }

  lemma {:induction false} TurnContentIs(model: nat -> Answer, k: nat, n: nat, content: string)
    requires TurnLength(model, k, MAX_TOOL_ROUNDS) == n && WroteSoFar(model, k, n, content)
    ensures content == TurnContent(model, k)
  {
  }

  /* ---- The write that counts ---- */

  /** Call `j` of answer `i` of the turn from answer `k` on is executed and accepted. */
  ghost predicate WritesCall(model: nat -> Answer, k: nat, i: nat, j: nat) {
    var a := model(k + i);
    a.Answer? && a.toolUse && j < |a.calls| && IsAccepted(a.calls[j])
  }

  /** Among the first `n` answers of the turn, that call is the last of its kind. */
  ghost predicate WritesLast(model: nat -> Answer, k: nat, n: nat, i: nat, j: nat) {
    i < n && WritesCall(model, k, i, j) &&
    forall i': nat, j': nat :: i' < n && WritesCall(model, k, i', j') ==> i' < i || (i' == i && j' <= j)
  }

  /** `content` is what the last accepted write among the first `n` answers writes, or nothing if
      there is none. */
  ghost predicate IsWritten(model: nat -> Answer, k: nat, n: nat, content: string) {
    (exists i: nat, j: nat :: WritesLast(model, k, n, i, j) && content == model(k + i).calls[j].content) ||
    (content == "" && forall i: nat, j: nat :: i < n ==> !WritesCall(model, k, i, j))
  }

  lemma WrittenOnce(model: nat -> Answer, k: nat, n: nat, content: string, other: string)
    requires IsWritten(model, k, n, content) && IsWritten(model, k, n, other)
    ensures content == other
  {
  }

  /** One more answer: its last accepted write counts, or what counted before. */
  lemma WrittenNext(model: nat -> Answer, k: nat, n: nat, before: string, after: string)
    requires IsWritten(model, k, n, before)
    requires var a := model(k + n); if a.Answer? && a.toolUse then LeavesContent(a.calls, before, after) else after == before
    ensures IsWritten(model, k, n + 1, after)
  {
    var a := model(k + n);
    if a.Answer? && a.toolUse && exists j: nat :: LastAt(a.calls, j) && after == a.calls[j].content {
      var j: nat :| LastAt(a.calls, j) && after == a.calls[j].content;
      assert WritesLast(model, k, n + 1, n, j);
    } else {
      assert forall j: nat :: !WritesCall(model, k, n, j);
      if i: nat, j: nat :| WritesLast(model, k, n, i, j) && before == model(k + i).calls[j].content {
        assert WritesLast(model, k, n + 1, i, j);
      }
    }
  }

  /** The content of a turn is what its last accepted write writes. */
  lemma {:induction false} TurnWritesLast(model: nat -> Answer, k: nat, n: nat)
    ensures IsWritten(model, k, n, LastWrite(Executed(Answers(model, k, n))))
    decreases n
  {
    hide LastWrite, IsWritten, LeavesContent, Executed, Answers;
    if n == 0 {
      NothingWritten(model, k);
    } else {
      var before, a := Answers(model, k, n - 1), model(k + n - 1);
      TurnWritesLast(model, k, n - 1);
      AnswersNext(model, k, n - 1);
      AnswerWrites(before, a);
      WrittenNext(model, k, n - 1, LastWrite(Executed(before)), LastWrite(Executed(before + [a])));
    }
  }

  lemma NothingWritten(model: nat -> Answer, k: nat)
    ensures IsWritten(model, k, 0, LastWrite(Executed(Answers(model, k, 0))))
  {
    assert Answers(model, k, 0) == [];
  }

  lemma {:induction false} AnswerWrites(before: seq<Answer>, a: Answer)
    ensures var w, w' := LastWrite(Executed(before)), LastWrite(Executed(before + [a]));
            if a.Answer? && a.toolUse then LeavesContent(a.calls, w, w') else w' == w
  {
    hide LastWrite, LeavesContent;
    ExecutedNext(before, a);
    if a.Answer? && a.toolUse {
      LastWriteJoins(Executed(before), a.calls);
    }
  }

  lemma {:induction false} LastWriteJoins(u: seq<ToolCall>, v: seq<ToolCall>)
    ensures LeavesContent(v, LastWrite(u), LastWrite(u + v))
  {
    hide IsAccepted, LastWrite;
    var w := u + v;
    LastWriteIsLast(u);
    LastWriteIsLast(w);
    forall j | 0 <= j < |w| ensures w[j] == if j < |u| then u[j] else v[j - |u|] {
    }
    if i: nat :| LastAt(w, i) && LastWrite(w) == w[i].content {
      if i >= |u| {
        forall j | i - |u| < j < |v| ensures !IsAccepted(v[j]) {
          assert w[|u| + j] == v[j];
        }
        assert LastAt(v, i - |u|);
      } else {
        assert LastAt(u, i);
        forall j | 0 <= j < |v| ensures !IsAccepted(v[j]) {
          assert w[|u| + j] == v[j];
        }
      }
    } else {
      forall j | 0 <= j < |v| ensures !IsAccepted(v[j]) {
        assert w[|u| + j] == v[j];
      }
      forall j | 0 <= j < |u| ensures !IsAccepted(u[j]) {
        assert w[j] == u[j];
      }
    }
  }

  /** Where turn `t` begins, when the first one begins at answer `k`. */
  function TurnStart(model: nat -> Answer, k: nat, t: nat): nat
    decreases t
  {
    if t == 0 then k else TurnStart(model, TurnEnd(model, k), t - 1)
  }

  /** What is written, turn by turn from answer `k` on, is what the last accepted write of each
      turn writes. */
  ghost predicate WrittenInTurns(model: nat -> Answer, k: nat, contents: seq<string>) {
    forall t :: 0 <= t < |contents| ==> WrittenInTurn(model, k, t, contents[t])
  }

  ghost predicate WrittenInTurn(model: nat -> Answer, k: nat, t: nat, content: string) {
    var start := TurnStart(model, k, t);
    IsWritten(model, start, TurnEnd(model, start) - start, content)
  }

  /** The contents of the engineer's turns, the answer after them, and whether one failed. */
  datatype Plan = Plan(contents: seq<string>, next: nat, failed: bool)

  /** At most `left` turns from answer `k` on, until a content passes the gate or one fails. */
  ghost function PlanFrom(model: nat -> Answer, k: nat, left: nat): Plan
    requires left > 0
    decreases left
  {
    if TurnFails(model, k) then Plan([], TurnEnd(model, k), true)
    else
      var content := TurnContent(model, k);
      if Gate.Passes(content) || left == 1 then Plan([content], TurnEnd(model, k), false)
      else
        var rest := PlanFrom(model, TurnEnd(model, k), left - 1);
        rest.(contents := [content] + rest.contents)
  }

  /** Does the plan end with a content that passes the gate? */
  ghost predicate PlanPasses(p: Plan) { p.contents != [] && Gate.Passes(p.contents[|p.contents| - 1]) }

  ghost predicate FailsBetween(model: nat -> Answer, k: nat, n: nat) { exists i: nat :: k <= i < n && model(i).Failure? }

  lemma TurnFailsExactly(model: nat -> Answer, k: nat)
    ensures TurnFails(model, k) <==> FailsBetween(model, k, TurnEnd(model, k))
  {
    forall i: nat | k <= i < TurnEnd(model, k) - 1 ensures !model(i).Failure? {
      assert IsOwed(model(i));
    }
  }

  /** The plan from answer `k` on, one turn further. */
  lemma PlanStep(model: nat -> Answer, k: nat, left: nat)
    requires left > 0 && !TurnFails(model, k)
    ensures var p, content := PlanFrom(model, k, left), TurnContent(model, k);
            if Gate.Passes(content) || left == 1 then p == Plan([content], TurnEnd(model, k), false)
            else
              var rest := PlanFrom(model, TurnEnd(model, k), left - 1);
              p.contents == [content] + rest.contents && p.next == rest.next && p.failed == rest.failed
  {
  }

  /** The plan writes what the last accepted write of each turn writes, and so does every part
      of it from the start. */
  lemma {:induction false} PlanWritesLast(model: nat -> Answer, k: nat, left: nat, written: seq<string>)
    requires left > 0 && written <= PlanFrom(model, k, left).contents
    ensures WrittenInTurns(model, k, written)
    decreases left
  {
    hide TurnContent, TurnEnd, IsWritten;
    if written != [] {
      PlanStep(model, k, left);
      TurnIsWritten(model, k);
      var content, rest := TurnContent(model, k), written[1..];
      assert written[0] == content;
      if Gate.Passes(content) || left == 1 {
        assert rest == [];
      } else {
        assert rest <= PlanFrom(model, TurnEnd(model, k), left - 1).contents;
        PlanWritesLast(model, TurnEnd(model, k), left - 1, rest);
      }
      WrittenFirst(model, k, content, rest);
      assert written == [content] + rest;
    }
  }

  lemma TurnIsWritten(model: nat -> Answer, k: nat)
    ensures IsWritten(model, k, TurnEnd(model, k) - k, TurnContent(model, k))
  {
    TurnWritesLast(model, k, TurnLength(model, k, MAX_TOOL_ROUNDS));
  }

  lemma WrittenFirst(model: nat -> Answer, k: nat, content: string, rest: seq<string>)
    requires IsWritten(model, k, TurnEnd(model, k) - k, content) && WrittenInTurns(model, TurnEnd(model, k), rest)
    ensures WrittenInTurns(model, k, [content] + rest)
  {
    hide IsWritten, TurnEnd;
    forall t | 0 <= t < |[content] + rest| ensures WrittenInTurn(model, k, t, ([content] + rest)[t]) {
      if t > 0 {
        assert WrittenInTurn(model, TurnEnd(model, k), t - 1, rest[t - 1]);
      }
    }
  }

  /** At most one content for each of `left` turns; only the last may pass the gate, and it
      does unless the turns are used up or one fails. */
  ghost predicate IsBounded(p: Plan, left: nat) {
    |p.contents| <= left && OnlyLastPasses(p.contents) &&
    if p.failed then |p.contents| < left && !PlanPasses(p)
    else p.contents != [] && (PlanPasses(p) || |p.contents| == left)
  }

  ghost predicate OnlyLastPasses(contents: seq<string>) {
    forall i :: 0 <= i < |contents| - 1 ==> !Gate.Passes(contents[i])
  }

  /** The plan asks at least once, at most eight times in each of `left` turns, and fails
      exactly if the model fails. */
  ghost predicate Spans(p: Plan, model: nat -> Answer, k: nat, left: nat) {
    k < p.next <= k + left * MAX_TOOL_ROUNDS && (p.failed <==> FailsBetween(model, k, p.next))
  }

  lemma {:induction false} PlanBounds(model: nat -> Answer, k: nat, left: nat)
    requires left > 0
    ensures IsBounded(PlanFrom(model, k, left), left) && Spans(PlanFrom(model, k, left), model, k, left)
    decreases left
  {
    TurnFailsExactly(model, k);
    if !TurnFails(model, k) {
      PlanStep(model, k, left);
      if Gate.Passes(TurnContent(model, k)) || left == 1 {
        LastBounds(TurnContent(model, k), TurnEnd(model, k), left);
      } else {
        PlanBounds(model, TurnEnd(model, k), left - 1);
        BoundsGrow(TurnContent(model, k), PlanFrom(model, k, left), PlanFrom(model, TurnEnd(model, k), left - 1), left);
        FailsSplits(model, k, TurnEnd(model, k), PlanFrom(model, k, left).next);
      }
    }
  }

  lemma LastBounds(content: string, next: nat, left: nat)
    requires left > 0 && (Gate.Passes(content) || left == 1)
    ensures IsBounded(Plan([content], next, false), left)
  {
  }

  lemma BoundsGrow(content: string, p: Plan, rest: Plan, left: nat)
    requires left > 1 && !Gate.Passes(content) && IsBounded(rest, left - 1)
    requires p.contents == [content] + rest.contents && p.failed == rest.failed
    ensures IsBounded(p, left)
  {
    forall i | 0 <= i < |p.contents| - 1 ensures !Gate.Passes(p.contents[i]) {
      assert i > 0 ==> p.contents[i] == rest.contents[i - 1];
    }
    assert rest.contents != [] ==> p.contents[|p.contents| - 1] == rest.contents[|rest.contents| - 1];
  }

  lemma FailsInFirst(model: nat -> Answer)
    ensures FailsBetween(model, 0, 1) <==> model(0).Failure?
    ensures FailsBetween(model, 0, 2) <==> model(0).Failure? || model(1).Failure?
  {
  }

  lemma FailsSplits(model: nat -> Answer, k: nat, m: nat, n: nat)
    requires k <= m <= n
    ensures FailsBetween(model, k, n) <==> FailsBetween(model, k, m) || FailsBetween(model, m, n)
  {
  }

  /** What has been written since `before`, after answer `asks`, is the plan or, in trouble, a
      beginning of it. */
  ghost predicate KeepsTo(p: Plan, before: seq<string>, written: seq<string>, asks: nat, troubled: bool) {
    written <= before + p.contents && before <= written && asks <= p.next &&
    (!troubled ==> written == before + p.contents && asks == p.next)
  }

  /** The rest of the plan, when `written` has been written of it since `before`. */
  ghost predicate Remains(p: Plan, rest: Plan, before: seq<string>, written: seq<string>) {
    before + p.contents == written + rest.contents && p.next == rest.next && p.failed == rest.failed && before <= written
  }

  /** The turn failed. */
  lemma {:induction false} KeepsToFailure(model: nat -> Answer, k: nat, left: nat, p: Plan, before: seq<string>,
          written: seq<string>)
    requires left > 0 && TurnFails(model, k) && Remains(p, PlanFrom(model, k, left), before, written)
    ensures p.failed && KeepsTo(p, before, written, TurnEnd(model, k), false)
  {
  }

  lemma Shift(all: seq<string>, written: seq<string>, content: string, tail: seq<string>)
    requires all == written + ([content] + tail)
    ensures all == (written + [content]) + tail && written + [content] <= all
  {
    assert all == (written + [content]) + tail;
  }

  lemma {:induction false} PlanGoesOn(model: nat -> Answer, k: nat, left: nat)
    requires left > 0
    ensures PlanFrom(model, k, left).next >= TurnEnd(model, k) > k
    decreases left
  {
    if !TurnFails(model, k) {
      PlanStep(model, k, left);
      if left > 1 {
        PlanGoesOn(model, TurnEnd(model, k), left - 1);
      }
    }
  }

  /** The plan begins with the turn's content. */
  lemma {:induction false} PlanBegins(model: nat -> Answer, k: nat, left: nat)
    requires left > 0 && !TurnFails(model, k)
    ensures [TurnContent(model, k)] <= PlanFrom(model, k, left).contents
  {
    PlanStep(model, k, left);
  }

  lemma PrefixShifts(all: seq<string>, written: seq<string>, content: string, rest: seq<string>)
    requires all == written + rest && [content] <= rest
    ensures written + [content] <= all
  {
    assert all[..|written| + 1] == written + rest[..1];
  }

  /** The draft of the turn was lost. */
  lemma {:induction false} KeepsToLoss(model: nat -> Answer, k: nat, left: nat, p: Plan, before: seq<string>,
          written: seq<string>)
    requires left > 0 && !TurnFails(model, k) && Remains(p, PlanFrom(model, k, left), before, written)
    ensures KeepsTo(p, before, written + [TurnContent(model, k)], TurnEnd(model, k), true)
  {
    PlanBegins(model, k, left);
    PlanGoesOn(model, k, left);
    PrefixShifts(before + p.contents, written, TurnContent(model, k), PlanFrom(model, k, left).contents);
  }

  lemma KeepsToAnyway(p: Plan, before: seq<string>, written: seq<string>, asks: nat, troubled: bool)
    requires KeepsTo(p, before, written, asks, false)
    ensures KeepsTo(p, before, written, asks, troubled)
  {
  }

  /** The turn failed, or its draft was lost. */
  lemma {:induction false} KeepsToStop(model: nat -> Answer, k: nat, left: nat, p: Plan, before: seq<string>,
          written: seq<string>, troubled: bool)
    requires left > 0 && Remains(p, PlanFrom(model, k, left), before, written) && (troubled || TurnFails(model, k))
    ensures KeepsTo(p, before, written + if TurnFails(model, k) then [] else [TurnContent(model, k)], TurnEnd(model, k), troubled)
    ensures troubled || p.failed
  {
    if TurnFails(model, k) {
      KeepsToFailure(model, k, left, p, before, written);
      KeepsToAnyway(p, before, written, TurnEnd(model, k), troubled);
      assert written + [] == written;
    } else {
      KeepsToLoss(model, k, left, p, before, written);
    }
  }

  /** The last turn of the plan. */
  lemma {:induction false} KeepsToLast(model: nat -> Answer, k: nat, left: nat, p: Plan, before: seq<string>,
          written: seq<string>)
    requires left > 0 && !TurnFails(model, k) && Remains(p, PlanFrom(model, k, left), before, written)
    requires Gate.Passes(TurnContent(model, k)) || left == 1
    ensures KeepsTo(p, before, written + [TurnContent(model, k)], TurnEnd(model, k), false) && !p.failed
    ensures |before| <= |written| && PlanPasses(p) == Gate.Passes(TurnContent(model, k))
  {
    PlanStep(model, k, left);
    var content := TurnContent(model, k);
    assert (before + p.contents)[|before + p.contents| - 1] == (written + [content])[|written|] == content;
  }

  /** A turn with more to come. */
  lemma RemainsNext(model: nat -> Answer, k: nat, left: nat, p: Plan, before: seq<string>, written: seq<string>)
    requires left > 1 && !TurnFails(model, k) && Remains(p, PlanFrom(model, k, left), before, written)
    requires !Gate.Passes(TurnContent(model, k))
    ensures Remains(p, PlanFrom(model, TurnEnd(model, k), left - 1), before, written + [TurnContent(model, k)])
  {
    PlanStep(model, k, left);
    Shift(before + p.contents, written, TurnContent(model, k), PlanFrom(model, TurnEnd(model, k), left - 1).contents);
  }

  /** The plan is over, with the outcome `ok` and `pass`. */
  ghost predicate ComesTo(p: Plan, before: seq<string>, written: seq<string>, asks: nat, troubled: bool, ok: bool, pass: bool) {
    KeepsTo(p, before, written, asks, troubled) && ok == (!troubled && !p.failed) && (ok ==> pass == PlanPasses(p))
  }

  /** The turn from answer `k` on has been taken, and judged unless it failed or its draft was
      lost: that is a step of the plan, its end, or where the loop leaves it in trouble. */
  lemma PlanTurns(model: nat -> Answer, k: nat, left: nat, p: Plan, before: seq<string>, written: seq<string>,
                  written': seq<string>, ok: bool, pass: bool, troubled: bool)
    requires left > 0 && Remains(p, PlanFrom(model, k, left), before, written)
    requires written' == written + if TurnFails(model, k) then [] else [TurnContent(model, k)]
    requires ok == (!TurnFails(model, k) && !troubled) && (ok ==> pass == Gate.Passes(TurnContent(model, k)))
    ensures if ok && !pass && left > 1 then Remains(p, PlanFrom(model, TurnEnd(model, k), left - 1), before, written')
            else ComesTo(p, before, written', TurnEnd(model, k), troubled, ok, pass)
  {
    if !ok {
      KeepsToStop(model, k, left, p, before, written, troubled);
    } else if pass || left == 1 {
      KeepsToLast(model, k, left, p, before, written);
    } else {
      RemainsNext(model, k, left, p, before, written);
    }
  }

  /** The first two answers were no failures, and the engineer has kept to the plan that begins
      after them: it has come to its end exactly if nothing went wrong. */
  lemma {:induction false} PlanIsMet(model: nat -> Answer, k: nat, left: nat, before: seq<string>,
          written: seq<string>, asks: nat, troubled: bool)
    requires left > 0 && KeepsTo(PlanFrom(model, k, left), before, written, asks, troubled)
    requires k == 2 && before == [] && !FailsBetween(model, 0, 2)
    ensures var p := PlanFrom(model, 2, left);
            written <= p.contents && asks <= p.next &&
            ((!troubled && !p.failed) <==> !(troubled || FailsBetween(model, 0, asks))) &&
            (!troubled ==> written == p.contents && asks == p.next)
  {
    var p := PlanFrom(model, 2, left);
    NothingBefore(p.contents);
    if !troubled {
      PlanBounds(model, 2, left);
      FailsSplits(model, 0, 2, asks);
    }
  }

  lemma NothingBefore(contents: seq<string>)
    ensures [] + contents == contents
  {
  }
}
