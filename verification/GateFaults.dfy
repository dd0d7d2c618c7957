/** What the bracket pass and the tag pass share: a stack of open kinds with their lines,
    and the report on the first fault of a text. */
module GateFaults {
  import opened Prelude
  import opened GateText
  import opened Nesting

  /** An open bracket or tag on the stack of a pass. */
  datatype Frame<K> = Frame(kind: K, line: nat)

  /** A report: a line and the kinds its message names. */
  datatype Error<K> =
    | Unexpected(line: nat, kind: K)
    | Mismatched(line: nat, kind: K, expected: K)
    | NotClosed(line: nat, kind: K)

  function Report<K>(t: string, fault: Fault<K>): Error<K>
    requires fault.at <= |t|
  {
    var line := LineOf(t, fault.at);
    match fault
    case UnexpectedClose(_, k) => Unexpected(line, k)
    case MismatchedClose(_, k, x) => Mismatched(line, k, x)
    case Unclosed(_, k) => NotClosed(line, k)
  }

  /** `err` reports a fault of the text `t`, whose tokens are `marks`. */
  ghost predicate Reports<K(!new)>(t: string, marks: Marks<K>, err: Error<K>) {
    exists fault: Fault<K> :: IsFault(marks, fault) && fault.at < |t| && err == Report(t, fault)
  }

  /** There is only one report a pass can give, and its line lies within the text. */
  lemma {:induction false} ReportUnique<K(!new)>(t: string, marks: Marks<K>, e: Error<K>, e': Error<K>)
    requires Reports(t, marks, e) && Reports(t, marks, e')
    ensures e == e' && !Nested(Tokens(marks)) && 1 <= e.line <= LineOf(t, |t|)
  {
    var f: Fault<K> :| IsFault(marks, f) && f.at < |t| && e == Report(t, f);
    var f': Fault<K> :| IsFault(marks, f') && f'.at < |t| && e' == Report(t, f');
    FaultUnique(marks, f, f');
    FaultExcludesNested(marks, f);
    LineOfMonotone(t, f.at, |t|);
  }

  function Kinds<K>(stack: seq<Frame<K>>): (ks: seq<K>)
    ensures |ks| == |stack| && forall m :: 0 <= m < |ks| ==> ks[m] == stack[m].kind
  {
    seq(|stack|, m requires 0 <= m < |stack| => stack[m].kind)
  }

  /** The stack holds what is open just before position `n`, each kind with its line. */
  ghost predicate HoldsOpen<K(!new)>(t: string, marks: Marks<K>, n: nat, stack: seq<Frame<K>>) {
    |marks| == |t| &&
    exists at :: Stacked(marks, n, Kinds(stack), at) && LinesAt(t, stack, at)
  }

  ghost predicate LinesAt<K>(t: string, stack: seq<Frame<K>>, at: seq<nat>) {
    |at| == |stack| &&
    forall m :: 0 <= m < |stack| ==> at[m] <= |t| && stack[m].line == LineOf(t, at[m])
  }

  lemma HoldsNothing<K(!new)>(t: string, marks: Marks<K>)
    requires |marks| == |t|
    ensures HoldsOpen<K>(t, marks, 0, [])
  {
    assert Stacked(marks, 0, Kinds<K>([]), []) && LinesAt<K>(t, [], []);
  }

  lemma Skip<K(!new)>(t: string, marks: Marks<K>, n: nat, stack: seq<Frame<K>>)
    requires HoldsOpen(t, marks, n, stack) && n < |t| && marks[n] == None
    ensures HoldsOpen(t, marks, n + 1, stack)
  {
    var at :| Stacked(marks, n, Kinds(stack), at) && LinesAt(t, stack, at);
    StackedSkip(marks, n, Kinds(stack), at);
  }

  lemma Push<K(!new)>(t: string, marks: Marks<K>, n: nat, stack: seq<Frame<K>>, k: K)
    requires HoldsOpen(t, marks, n, stack) && n < |t| && marks[n] == Some(Open(k))
    ensures HoldsOpen(t, marks, n + 1, stack + [Frame(k, LineOf(t, n))])
  {
    var at :| Stacked(marks, n, Kinds(stack), at) && LinesAt(t, stack, at);
    var stack' := stack + [Frame(k, LineOf(t, n))];
    StackedPush(marks, n, Kinds(stack), at, k);
    assert Kinds(stack') == Kinds(stack) + [k];
    assert LinesAt(t, stack', at + [n]);
  }

  lemma Pop<K(!new)>(t: string, marks: Marks<K>, n: nat, stack: seq<Frame<K>>, k: K)
    requires HoldsOpen(t, marks, n, stack) && n < |t| && marks[n] == Some(Close(k))
    requires stack != [] && stack[|stack| - 1].kind == k
    ensures HoldsOpen(t, marks, n + 1, stack[..|stack| - 1])
  {
    var at :| Stacked(marks, n, Kinds(stack), at) && LinesAt(t, stack, at);
    var stack' := stack[..|stack| - 1];
    StackedPop(marks, n, Kinds(stack), at, k);
    assert Kinds(stack') == Kinds(stack)[..|stack| - 1];
    assert LinesAt(t, stack', at[..|at| - 1]);
  }

  /** A closing token that does not match the top of the stack is the first fault. */
  lemma {:induction false} BadClose<K(!new)>(t: string, marks: Marks<K>, n: nat, stack: seq<Frame<K>>, k: K)
    requires HoldsOpen(t, marks, n, stack) && n < |t| && marks[n] == Some(Close(k))
    requires stack == [] || stack[|stack| - 1].kind != k
    ensures !Nested(Tokens(marks))
    ensures stack == [] ==> Reports(t, marks, Unexpected(LineOf(t, n), k))
    ensures stack != [] ==> Reports(t, marks, Mismatched(LineOf(t, n), k, stack[|stack| - 1].kind))
  {
    var at :| Stacked(marks, n, Kinds(stack), at) && LinesAt(t, stack, at);
    StackedTop(marks, n, Kinds(stack), at);
    var fault := if stack == [] then UnexpectedClose(n, k) else MismatchedClose(n, k, stack[|stack| - 1].kind);
    FaultExcludesNested(marks, fault);
    assert IsFault(marks, fault);
  }

  /** At the end of the text the stack is empty exactly when the text is well nested. */
  lemma {:induction false} AtEnd<K(!new)>(t: string, marks: Marks<K>, stack: seq<Frame<K>>)
    requires HoldsOpen(t, marks, |t|, stack)
    ensures Nested(Tokens(marks)) <==> stack == []
    ensures stack != [] ==> Reports(t, marks, NotClosed(stack[|stack| - 1].line, stack[|stack| - 1].kind))
  {
    var q := OpenAtEnd(t, marks, stack);
    if stack != [] {
      TopUnclosed(t, marks, q, stack[|stack| - 1]);
    }
  }

  /** Where the innermost open token is at the end of the text. */
  lemma OpenAtEnd<K(!new)>(t: string, marks: Marks<K>, stack: seq<Frame<K>>) returns (q: nat)
    requires HoldsOpen(t, marks, |t|, stack)
    ensures |marks| == |t| && Extendable(Tokens(marks)) && (Nested(Tokens(marks)) <==> stack == [])
    ensures stack != [] ==>
              var top := stack[|stack| - 1];
              q <= |t| && InnermostOpen(marks, q, |t|, top.kind) && top.line == LineOf(t, q)
  {
    var at :| Stacked(marks, |t|, Kinds(stack), at) && LinesAt(t, stack, at);
    StackedAtEnd(marks, Kinds(stack), at);
    q := if stack == [] then 0 else at[|stack| - 1];
  }

  lemma {:induction false} StackedAtEnd<K(!new)>(marks: Marks<K>, kinds: seq<K>, at: seq<nat>)
    requires Stacked(marks, |marks|, kinds, at)
    ensures |at| == |kinds| && Extendable(Tokens(marks)) && (Nested(Tokens(marks)) <==> kinds == [])
    ensures kinds != [] ==> InnermostOpen(marks, at[|at| - 1], |marks|, kinds[|kinds| - 1])
  {
    StackedTop(marks, |marks|, kinds, at);
    assert marks[..|marks|] == marks;
  }

  lemma {:induction false} TopUnclosed<K(!new)>(t: string, marks: Marks<K>, q: nat, top: Frame<K>)
    requires |marks| == |t| && Extendable(Tokens(marks)) && InnermostOpen(marks, q, |t|, top.kind)
    requires q <= |t| && top.line == LineOf(t, q)
    ensures Reports(t, marks, NotClosed(top.line, top.kind))
  {
    var fault := Unclosed(q, top.kind);
    assert IsFault(marks, fault) && Report(t, fault) == NotClosed(top.line, top.kind);
  }

  /** Takes the token at position `i` into account: an open one is pushed with its line,
      a close one must match the top.  `line` is the line of position `i`. */
  method Advance<K(==,!new)>(t: string, ghost marks: Marks<K>, i: nat, mark: Option<Token<K>>,
                             stack: seq<Frame<K>>, line: nat)
    returns (err: Option<Error<K>>, stack': seq<Frame<K>>)
    requires HoldsOpen(t, marks, i, stack) && i < |t| && marks[i] == mark && line == LineOf(t, i)
    ensures err.None? ==> HoldsOpen(t, marks, i + 1, stack')
    ensures err.Some? ==> Reports(t, marks, err.value) && !Nested(Tokens(marks))
  {
    err, stack' := None, stack;
    match mark
    case None =>
      Skip(t, marks, i, stack);
    case Some(Open(k)) =>
      Push(t, marks, i, stack, k);
      stack' := stack + [Frame(k, line)];
    case Some(Close(k)) =>
      if |stack| == 0 {
        BadClose(t, marks, i, stack, k);
        err := Some(Unexpected(line, k));
      } else if stack[|stack| - 1].kind != k {
        BadClose(t, marks, i, stack, k);
        err := Some(Mismatched(line, k, stack[|stack| - 1].kind));
      } else {
        Pop(t, marks, i, stack, k);
        stack' := stack[..|stack| - 1];
      }
  }

  /** The report on a text read to its end. */
  method Finish<K(!new)>(t: string, ghost marks: Marks<K>, stack: seq<Frame<K>>) returns (err: Option<Error<K>>)
    requires HoldsOpen(t, marks, |t|, stack)
    ensures err.None? <==> Nested(Tokens(marks))
    ensures err.Some? ==> Reports(t, marks, err.value)
  {
    AtEnd(t, marks, stack);
    if |stack| > 0 {
      var top := stack[|stack| - 1];
      return Some(NotClosed(top.line, top.kind));
    }
    err := None;
  }
}
