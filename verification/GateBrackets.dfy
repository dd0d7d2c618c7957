/** The bracket pass of the compile gate (internal/compile/compile.go, braceBalance). */
module GateBrackets {
  import opened Prelude
  import opened GateText
  import opened Nesting
  import opened GateFaults

  predicate IsOpening(c: char) { c == '(' || c == '{' || c == '[' }

  /** The opening bracket a closing one needs. */
  function Wanted(c: char): Option<char> {
    if c == ')' then Some('(') else if c == '}' then Some('{') else if c == ']' then Some('[') else None
  }

  function BracketMark(c: char): Option<Token<char>> {
    if IsOpening(c) then Some(Open(c))
    else match Wanted(c) case None => None case Some(o) => Some(Close(o))
  }

  function BracketMarks(t: string): (m: Marks<char>)
    ensures |m| == |t|
  {
    seq(|t|, i requires 0 <= i < |t| => BracketMark(t[i]))
  }

  ghost predicate BracketsNested(t: string) { Nested(Tokens(BracketMarks(t))) }

  /** Reports the first fault of the bracket structure of `t`, if it has one. */
  method CheckBrackets(t: string) returns (err: Option<Error<char>>)
    ensures err.None? <==> BracketsNested(t)
    ensures err.Some? ==> Reports(t, BracketMarks(t), err.value)
  {
    ghost var marks := BracketMarks(t);
    var stack: seq<Frame<char>> := [];
    var line := 1;
    HoldsNothing(t, marks);
    for i := 0 to |t|
      invariant line == LineOf(t, i) && HoldsOpen(t, marks, i, stack)
    {
      var mark := BracketMark(t[i]);
      err, stack := Advance(t, marks, i, mark, stack, line);
      if err.Some? {
        return;
      }
      LineOfNext(t, i);
      if t[i] == '\n' {
        line := line + 1;
      }
    }
    err := Finish(t, marks, stack);
  }

  /** The brackets of a text, byte by byte. */
  lemma BracketsOneByOne(t: string, c: char)
    ensures Tokens(BracketMarks(t + [c])) == Tokens(BracketMarks(t)) +
            (if c in "([{" then [Open(c)]
             else if c == ')' then [Close('(')] else if c == ']' then [Close('[')] else if c == '}' then [Close('{')]
             else [])
  {
    var m := BracketMarks(t + [c]);
    assert m[..|t|] == BracketMarks(t);
  }

  /** A nested text in a pair of brackets is nested, and in brackets of two kinds it is not. */
  lemma BracketedText(t: string, o: char, c: char)
    requires BracketsNested(t) && o in "([{" && c in ")]}"
    ensures BracketsNested([o] + t + [c]) <==> [o, c] in ["()", "[]", "{}"]
  {
    hide BracketMark;
    var u := [o] + t;
    BracketsOneByOne("", o);
    assert "" + [o] == [o];
    BracketsOneByOne(u, c);
    TokensAppend(BracketMarks([o]), BracketMarks(t));
    assert BracketMarks(u) == BracketMarks([o]) + BracketMarks(t);
    var w, k := Tokens(BracketMarks(t)), Wanted(c).value;
    assert Tokens(BracketMarks(u + [c])) == [Open(o)] + w + [Close(k)];
    NestedIffRead(w);
    NestedIffRead([Open(o)] + w + [Close(k)]);
    ReadBetween(o, w, k);
  }

  lemma {:induction false} ReadBetween(o: char, w: seq<Token<char>>, k: char)
    requires Nested(w)
    ensures Read([], [Open(o)] + w + [Close(k)]) == if o == k then Some([]) else None
  {
    var f: Forest<char> :| Word(f) == w;
    ReadWord([o], f);
    ReadAppend([], [Open(o)] + w, [Close(k)]);
    ReadAppend([], [Open(o)], w);
    var open := [Open(o)];
    assert [o][..0] == [] && [] + [o] == [o] && open[1..] == [];
    assert Read([], open) == Read([] + [o], open[1..]) == Some([o]);
  }
}
