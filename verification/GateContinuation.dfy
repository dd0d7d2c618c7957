/** What a closing-bracket fault says about the source itself: no continuation of the source
    up to and including that byte passes the bracket check, and every shorter prefix has one
    that does. */
module GateContinuation {
  import opened Prelude
  import opened GateText
  import opened GateBlanking
  import opened Nesting
  import opened GateBrackets

  /* ---- Cutting a text cuts its blanked form ---- */

  function Cut(t: string, m: nat): string { if m < |t| then t[..m] else t }

  lemma {:induction false} LineCommentCut(r: string, m: nat)
    requires m <= |r|
    ensures LineComment(r[..m]) == Cut(LineComment(r), m)
  {
    if m > 0 && r[0] != '\n' {
      assert r[..m][1..] == r[1..][..m - 1];
      LineCommentCut(r[1..], m - 1);
    }
  }

  lemma {:induction false} BlockCommentCut(r: string, m: nat)
    requires m <= |r|
    ensures BlockComment(r[..m]) == Cut(BlockComment(r), m)
  {
    if m > 0 {
      if m == 1 {
        assert r[..1][1..] == [];
        assert BlockComment(r[..1]) == [Blank(r[0])];
      } else if !(r[0] == '*' && r[1] == '/') {
        assert r[..m][1..] == r[1..][..m - 1];
        BlockCommentCut(r[1..], m - 1);
      }
    }
  }

  lemma {:induction false} QuotedCut(r: string, q: char, m: nat)
    requires m <= |r|
    ensures Quoted(r[..m], q) == Cut(Quoted(r, q), m)
  {
    if m > 0 && r[0] != q && r[0] != '\n' {
      if r[0] == '\\' && m > 1 {
        assert r[..m][2..] == r[2..][..m - 2];
        QuotedCut(r[2..], q, m - 2);
      } else if r[0] == '\\' && |r| > 1 {
        assert r[..1][1..] == [];
      } else {
        assert r[..m][1..] == r[1..][..m - 1];
        QuotedCut(r[1..], q, m - 1);
      }
    }
  }

  lemma {:induction false} TemplateCut(r: string, m: nat)
    requires m <= |r|
    ensures Template(r[..m]) == Cut(Template(r), m)
  {
    if m > 0 && r[0] != '`' {
      if r[0] == '\\' && m > 1 {
        assert r[..m][2..] == r[2..][..m - 2];
        TemplateCut(r[2..], m - 2);
      } else if r[0] == '\\' && |r| > 1 {
        assert r[..1][1..] == [];
      } else {
        assert r[..m][1..] == r[1..][..m - 1];
        TemplateCut(r[1..], m - 1);
      }
    }
  }

  /** The token at the front of a cut text is the cut token; only the opening of a comment
      that is cut after its first byte is read as that byte. */
  lemma TokenCut(p: string, r: string, m: nat)
    requires 0 < m <= |r|
    ensures Piece(p, r[..m]) == if m == 1 && (OpensLineComment(r) || OpensBlockComment(r)) then "/" else Cut(Piece(p, r), m)
  {
    var u := r[..m];
    if OpensLineComment(r) {
      LineCommentCut(r, m);
    } else if OpensBlockComment(r) {
      if m > 1 {
        assert u[2..] == r[2..][..m - 2];
        BlockCommentCut(r[2..], m - 2);
      }
    } else if OpensQuoted(p, r) {
      assert u[1..] == r[1..][..m - 1];
      QuotedCut(r[1..], r[0], m - 1);
    } else if OpensTemplate(r) {
      assert u[1..] == r[1..][..m - 1];
      TemplateCut(r[1..], m - 1);
    }
  }

  /** No brackets. */
  predicate Bare(t: string) { forall k :: 0 <= k < |t| ==> BracketMark(t[k]) == None }

  lemma BlankTokensAreBare(p: string, r: string)
    requires r != [] && OpensToken(p, r)
    ensures Bare(Piece(p, r))
  {
    TokenBlanks(p, r);
    var t := Piece(p, r);
    forall k | 0 <= k < |t| ensures BracketMark(t[k]) == None {
      assert BlankAt(t, r, k);
    }
  }

  /** The brackets of a text. */
  function Brackets(t: string): seq<Token<char>> { Tokens(BracketMarks(t)) }

  lemma BracketsOfSum(a: string, b: string)
    ensures Brackets(a + b) == Brackets(a) + Brackets(b)
  {
    assert BracketMarks(a + b) == BracketMarks(a) + BracketMarks(b);
    TokensAppend(BracketMarks(a), BracketMarks(b));
  }

  lemma {:induction false} BareHasNone(t: string)
    requires Bare(t)
    ensures Brackets(t) == []
  {
    if t != [] {
      var last := |t| - 1;
      BareHasNone(t[..last]);
      assert BracketMarks(t)[..last] == BracketMarks(t[..last]);
      assert BracketMark(t[last]) == None;
    }
  }

  /** The brackets of the text cut at `m`, blanked, are those of the blanked text, cut. */
  ghost predicate CutAgrees(p: string, r: string, m: nat) {
    m <= |r| && |BlankFrom(p, r)| == |p| + |r| &&
    Brackets(BlankFrom(p, r[..m])) == Brackets(BlankFrom(p, r)[..|p| + m])
  }

  lemma {:induction false} BlankFromCut(p: string, r: string, m: nat)
    requires m <= |r|
    ensures CutAgrees(p, r, m)
    decreases |r|
  {
    var done, p', r', m' := CutOnce(p, r, m);
    if !done {
      BlankFromCut(p', r', m');
    }
  }

  /** One piece of the text: it decides the cut, or the cut is in what follows it. */
  lemma CutOnce(p: string, r: string, m: nat) returns (done: bool, p': string, r': string, m': nat)
    requires m <= |r|
    ensures done ==> CutAgrees(p, r, m)
    ensures !done ==> m' <= |r'| < |r| && (CutAgrees(p', r', m') ==> CutAgrees(p, r, m))
  {
    done, p', r', m' := true, p, r, m;
    if m == 0 {
      CutToNothing(p, r);
    } else if |Piece(p, r)| <= m && Piece(p, r[..m]) == Piece(p, r) {
      var t := Piece(p, r);
      done, p', r', m' := false, p + t, r[|t|..], m - |t|;
      if CutAgrees(p', r', m') {
        CutLater(p, r, m, t);
      }
    } else {
      CutToken(p, r, m);
    }
  }

  lemma CutToNothing(p: string, r: string)
    ensures CutAgrees(p, r, 0)
  {
    BlankFromPrefix(p, r);
    assert r[..0] == [];
  }

  lemma CutLater(p: string, r: string, m: nat, t: string)
    requires 0 < m <= |r| && t == Piece(p, r) == Piece(p, r[..m]) && |t| <= m
    requires CutAgrees(p + t, r[|t|..], m - |t|)
    ensures CutAgrees(p, r, m)
  {
    SamePieceSameRest(p, r, m);
    var w := BlankFrom(p, r);
    ShiftedBrackets(w, BlankFrom(p, r[..m]), p, t, m);
  }

  lemma ShiftedBrackets(w: string, x: string, p: string, t: string, m: nat)
    requires |t| <= m && |p| + m <= |w| && Brackets(x) == Brackets(w[..|p + t| + (m - |t|)])
    ensures Brackets(x) == Brackets(w[..|p| + m])
  {
    assert w[..|p + t| + (m - |t|)] == w[..|p| + m];
  }

  lemma {:induction false} PieceIsPrefix(p: string, r: string)
    requires r != []
    ensures var w, t := BlankFrom(p, r), Piece(p, r); |p + t| <= |w| && w[..|p + t|] == p + t
  {
    BlankFromPrefix(p + Piece(p, r), r[|Piece(p, r)|..]);
  }

  lemma {:induction false} SamePieceSameRest(p: string, r: string, m: nat)
    requires 0 < m <= |r| && |Piece(p, r)| <= m && Piece(p, r[..m]) == Piece(p, r)
    ensures var t := Piece(p, r);
            BlankFrom(p, r) == BlankFrom(p + t, r[|t|..]) &&
            BlankFrom(p, r[..m]) == BlankFrom(p + t, r[|t|..][..m - |t|])
  {
    var t := Piece(p, r);
    assert r[..m][|t|..] == r[|t|..][..m - |t|];
  }

  lemma CutToken(p: string, r: string, m: nat)
    requires 0 < m <= |r| && (m < |Piece(p, r)| || Piece(p, r[..m]) != Piece(p, r))
    ensures CutAgrees(p, r, m)
  {
    var t, u := Piece(p, r), Piece(p, r[..m]);
    BlankFromPrefix(p, r);
    PieceIsPrefix(p, r);
    CutIsBare(p, r, m);
    OnePiece(p, r[..m]);
    CutOfPrefix(BlankFrom(p, r), p, t, m);
    BareEnd(p, u);
    BareEnd(p, t[..m]);
  }

  lemma CutIsBare(p: string, r: string, m: nat)
    requires 0 < m <= |r| && (m < |Piece(p, r)| || Piece(p, r[..m]) != Piece(p, r))
    ensures m <= |Piece(p, r)| && |Piece(p, r[..m])| == m && Bare(Piece(p, r[..m])) && Bare(Piece(p, r)[..m])
  {
    TokenCut(p, r, m);
    BlankTokensAreBare(p, r);
  }

  lemma CutOfPrefix(w: string, p: string, t: string, m: nat)
    requires m <= |t| && |p + t| <= |w| && w[..|p + t|] == p + t
    ensures w[..|p| + m] == p + t[..m]
  {
    assert w[..|p| + m] == w[..|p + t|][..|p| + m];
    assert (p + t)[..|p| + m] == p + t[..m];
  }

  lemma {:induction false} OnePiece(p: string, r: string)
    requires r != [] && |Piece(p, r)| == |r|
    ensures BlankFrom(p, r) == p + Piece(p, r)
  {
    assert r[|r|..] == [];
  }

  lemma BareEnd(p: string, t: string)
    requires Bare(t)
    ensures Brackets(p + t) == Brackets(p)
  {
    BareHasNone(t);
    BracketsOfSum(p, t);
  }

  lemma PrefixBrackets(s: string, n: nat)
    requires n <= |s|
    ensures |Blanked(s)| == |s| && Brackets(Blanked(s[..n])) == Brackets(Blanked(s)[..n])
  {
    BlankFromCut([], s, n);
  }

  /* ---- Continuing a text ---- */

  /** A text of closing brackets. */
  predicate AllClosing(cs: string) { forall k :: 0 <= k < |cs| ==> Wanted(cs[k]).Some? }

  lemma {:induction false} BracketIsPiece(p: string, r: string)
    requires r != [] && Wanted(r[0]).Some?
    ensures BlankFrom(p, r) == BlankFrom(p + [r[0]], r[1..]) && p + [r[0]] + r[1..] == p + r
  {
    assert Piece(p, r) == [r[0]];
  }

  lemma {:induction false} BracketsStay(p: string, cs: string)
    requires AllClosing(cs)
    ensures BlankFrom(p, cs) == p + cs
    decreases |cs|
  {
    if cs == [] {
      assert p + cs == p;
    } else {
      BracketIsPiece(p, cs);
      BracketsStay(p + [cs[0]], cs[1..]);
    }
  }

  /** Nothing, or the newline that an ended literal leaves. */
  predicate IsTail(tail: string) { tail == "" || tail == "\n" }

  lemma {:induction false} TailStays(p: string, tail: string, cs: string)
    requires IsTail(tail) && AllClosing(cs)
    ensures BlankFrom(p, tail + cs) == p + tail + cs
  {
    if tail == "" {
      assert tail + cs == cs && p + tail == p;
      BracketsStay(p, cs);
    } else {
      var r := tail + cs;
      assert r[0] == '\n' && r[1..] == cs;
      BracketsStay(p + ['\n'], cs);
    }
  }

  /* How to end each kind of literal or comment that reaches to the end of the text. */

  lemma {:induction false} LineCommentEnds(r: string, x: string)
    requires |LineComment(r)| == |r|
    ensures |LineComment(r + "\n" + x)| == |r|
  {
    var s := r + "\n" + x;
    if r != [] {
      assert s[1..] == r[1..] + "\n" + x;
      LineCommentEnds(r[1..], x);
    } else {
      assert s[0] == '\n';
    }
  }

  lemma {:induction false} BlockCommentEnds(r: string, x: string) returns (term: string)
    requires |BlockComment(r)| == |r|
    ensures term == "" || term == "*/"
    ensures |BlockComment(r + term + x)| == |r| + |term|
  {
    if r == [] {
      term := "*/";
      assert (r + term + x)[0] == '*' && (r + term + x)[1] == '/';
    } else if |r| > 1 && r[0] == '*' && r[1] == '/' {
      term := "";
      assert (r + term + x)[0] == '*' && (r + term + x)[1] == '/';
    } else {
      term := BlockCommentEnds(r[1..], x);
      if r == "*" && term == "*/" {
        assert (r + term + x)[1] == '*';
      }
      assert (r + term + x)[1..] == r[1..] + term + x;
      if |r| == 1 {
        assert r[1..] == [];
        if term == "" {
          assert BlockComment([]) == [];
        }
      }
    }
  }

  /** A quoted literal ends at its quote or before the newline; the space takes a pending
      backslash. */
  lemma {:induction false} QuotedEnds(r: string, q: char, x: string) returns (term: string, tail: string)
    requires |Quoted(r, q)| == |r| && q != ' ' && q != '\n' && q != '\\'
    ensures (term == "" && tail == "") || (term == " \n" && tail == "\n")
    ensures |Quoted(r + term + x, q)| == |r| + |term| - |tail|
  {
    if r == [] {
      term, tail := " \n", "\n";
      var s := r + term + x;
      assert s[0] == ' ' && s[1..][0] == '\n';
      assert Quoted(s[1..], q) == [];
    } else if r[0] == q {
      term, tail := "", "";
      assert (r + term + x)[0] == q;
    } else if r[0] == '\\' && |r| > 1 {
      term, tail := QuotedEnds(r[2..], q, x);
      assert (r + term + x)[2..] == r[2..] + term + x;
    } else if r == "\\" {
      term, tail := " \n", "\n";
      var s := r + term + x;
      assert s[2..][0] == '\n';
      assert Quoted(s[2..], q) == [];
    } else {
      term, tail := QuotedEnds(r[1..], q, x);
      assert (r + term + x)[1..] == r[1..] + term + x;
    }
  }

  /** A template literal ends at its backtick; the space takes a pending backslash. */
  lemma {:induction false} TemplateEnds(r: string, x: string) returns (term: string)
    requires |Template(r)| == |r|
    ensures term == "" || term == " `"
    ensures |Template(r + term + x)| == |r| + |term|
  {
    if r == [] {
      term := " `";
      var s := r + term + x;
      assert s[0] == ' ' && s[1..][0] == '`';
      assert Template(s[1..]) == " ";
    } else if r[0] == '`' {
      term := "";
      assert (r + term + x)[0] == '`';
    } else if r[0] == '\\' && |r| > 1 {
      term := TemplateEnds(r[2..], x);
      assert (r + term + x)[2..] == r[2..] + term + x;
    } else if r == "\\" {
      term := " `";
      var s := r + term + x;
      assert s[2..][0] == '`';
      assert Template(s[2..]) == " ";
    } else {
      term := TemplateEnds(r[1..], x);
      assert (r + term + x)[1..] == r[1..] + term + x;
    }
  }

  /** The last literal, comment or byte of a text can be ended so that what follows is read
      as it stands, and the ending adds no bracket. */
  lemma PieceEnds(p: string, r: string, cs: string) returns (term: string, tail: string)
    requires r != [] && |Piece(p, r)| == |r| && AllClosing(cs)
    ensures IsTail(tail) && |tail| <= |term|
    ensures var t := Piece(p, r + term + cs);
            |t| == |r| + |term| - |tail| && (r + term + cs)[|t|..] == tail + cs && Brackets(t) == Brackets(Piece(p, r))
  {
    if OpensToken(p, r) {
      term, tail := LiteralEnds(p, r, cs);
      BlankTokensAreBare(p, r);
      BlankTokensAreBare(p, r + term + cs);
      BareHasNone(Piece(p, r));
      BareHasNone(Piece(p, r + term + cs));
    } else {
      term, tail := "", "";
      assert r == [r[0]];
      assert (r + term + cs)[0] == r[0] && !OpensToken(p, r + term + cs);
      assert (r + term + cs)[1..] == tail + cs;
    }
  }

  lemma LiteralEnds(p: string, r: string, cs: string) returns (term: string, tail: string)
    requires r != [] && |Piece(p, r)| == |r| && OpensToken(p, r)
    ensures IsTail(tail) && |tail| <= |term|
    ensures OpensToken(p, r + term + cs)
    ensures var t := Piece(p, r + term + cs);
            |t| == |r| + |term| - |tail| && (r + term + cs)[|t|..] == tail + cs
  {
    if OpensLineComment(r) {
      term, tail := "\n", "\n";
      LineCommentEnds(r, cs);
      LinePieceEnds(p, r, term, cs);
    } else if OpensBlockComment(r) {
      term := BlockPieceEnds(p, r, cs);
      tail := "";
    } else if OpensQuoted(p, r) {
      term, tail := QuotedPieceEnds(p, r, cs);
    } else {
      term := TemplatePieceEnds(p, r, cs);
      tail := "";
    }
    Remainder(r, term, tail, cs);
  }

  lemma Remainder(r: string, term: string, tail: string, cs: string)
    requires tail == "" || (tail == "\n" && (term == "\n" || term == " \n"))
    ensures |tail| <= |term| && (r + term + cs)[|r| + |term| - |tail|..] == tail + cs
  {
    if tail == "" {
      assert (r + term + cs)[|r| + |term|..] == cs == tail + cs;
    } else {
      assert term[|term| - 1..] == tail;
      assert r + term + cs == (r + term[..|term| - 1]) + (tail + cs);
    }
  }

  lemma {:induction false} LinePieceEnds(p: string, r: string, term: string, cs: string)
    requires OpensLineComment(r) && |LineComment(r + term + cs)| == |r|
    ensures OpensLineComment(r + term + cs) && |Piece(p, r + term + cs)| == |r|
  {
    assert (r + term + cs)[0] == r[0] && (r + term + cs)[1] == r[1];
  }

  lemma BlockPieceEnds(p: string, r: string, cs: string) returns (term: string)
    requires OpensBlockComment(r) && |Piece(p, r)| == |r|
    ensures OpensBlockComment(r + term + cs) && |Piece(p, r + term + cs)| == |r| + |term|
  {
    term := BlockCommentEnds(r[2..], cs);
    assert (r + term + cs)[2..] == r[2..] + term + cs;
  }

  lemma QuotedPieceEnds(p: string, r: string, cs: string) returns (term: string, tail: string)
    requires OpensQuoted(p, r) && |Piece(p, r)| == |r|
    ensures (term == "" && tail == "") || (term == " \n" && tail == "\n")
    ensures OpensQuoted(p, r + term + cs) && |Piece(p, r + term + cs)| == |r| + |term| - |tail|
  {
    term, tail := QuotedEnds(r[1..], r[0], cs);
    assert (r + term + cs)[1..] == r[1..] + term + cs;
  }

  lemma TemplatePieceEnds(p: string, r: string, cs: string) returns (term: string)
    requires OpensTemplate(r) && |Piece(p, r)| == |r|
    ensures OpensTemplate(r + term + cs) && |Piece(p, r + term + cs)| == |r| + |term|
  {
    term := TemplateEnds(r[1..], cs);
    assert (r + term + cs)[1..] == r[1..] + term + cs;
  }

  /** A piece that does not reach to the end of the text stays as it is, whatever follows. */
  lemma PieceIsFinal(p: string, r: string, x: string)
    requires r != [] && |Piece(p, r)| < |r|
    ensures Piece(p, r + x) == Piece(p, r)
  {
    assert (r + x)[..|r|] == r;
    TokenCut(p, r + x, |r|);
  }

  /** Some continuation closes what is open and adds just the given closing brackets. */
  lemma {:induction false} ContinuationExists(p: string, r: string, cs: string) returns (c: string)
    requires AllClosing(cs)
    ensures Brackets(BlankFrom(p, r + c)) == Brackets(BlankFrom(p, r)) + Brackets(cs)
    decreases |r|
  {
    if r == [] {
      c := cs;
      assert r + c == cs;
      BracketsStay(p, cs);
      BracketsOfSum(p, cs);
    } else {
      var n := |Piece(p, r)|;
      if n < |r| {
        c := ContinuationExists(p + Piece(p, r), r[n..], cs);
        StepOver(p, r, c);
      } else {
        c := EndContinuation(p, r, cs);
      }
    }
  }

  lemma EndContinuation(p: string, r: string, cs: string) returns (c: string)
    requires AllClosing(cs) && r != [] && |Piece(p, r)| == |r|
    ensures Brackets(BlankFrom(p, r + c)) == Brackets(BlankFrom(p, r)) + Brackets(cs)
  {
    var term := TextEnds(p, r, cs);
    c := term + cs;
    Grouped(r, term, cs);
  }

  lemma Grouped(a: string, b: string, c: string)
    ensures a + (b + c) == a + b + c
  {
  }

  lemma TextEnds(p: string, r: string, cs: string) returns (term: string)
    requires AllClosing(cs) && r != [] && |Piece(p, r)| == |r|
    ensures Brackets(BlankFrom(p, r + term + cs)) == Brackets(BlankFrom(p, r)) + Brackets(cs)
  {
    var tail;
    term, tail := PieceEnds(p, r, cs);
    LastPiece(p, r, term, tail, cs);
  }

  lemma {:induction false} StepOver(p: string, r: string, x: string)
    requires r != [] && |Piece(p, r)| < |r|
    ensures var t := Piece(p, r);
            BlankFrom(p, r + x) == BlankFrom(p + t, r[|t|..] + x) && BlankFrom(p, r) == BlankFrom(p + t, r[|t|..])
  {
    PieceIsFinal(p, r, x);
    var t := Piece(p, r);
    assert (r + x)[|t|..] == r[|t|..] + x;
  }

  lemma {:induction false} LastPiece(p: string, r: string, term: string, tail: string, cs: string)
    requires r != [] && |Piece(p, r)| == |r| && AllClosing(cs) && IsTail(tail)
    requires var t := Piece(p, r + term + cs);
             |t| <= |r + term + cs| && (r + term + cs)[|t|..] == tail + cs && Brackets(t) == Brackets(Piece(p, r))
    ensures Brackets(BlankFrom(p, r + term + cs)) == Brackets(BlankFrom(p, r)) + Brackets(cs)
  {
    var t := Piece(p, r + term + cs);
    OnePiece(p, r);
    TailStays(p + t, tail, cs);
    BracketsOfSum(p, Piece(p, r));
    BracketsOfSum(p, t);
    assert Bare(tail);
    BareEnd(p + t, tail);
    BracketsOfSum(p + t + tail, cs);
  }

  /* ---- Sources ---- */

  /** The bracket check passes. */
  ghost predicate Balanced(s: string) { BracketsNested(Blanked(s)) }

  ghost predicate Completable(s: string) { exists c: string :: Balanced(s + c) }

  function CloserOf(c: char): char { if c == '(' then ')' else if c == '{' then '}' else ']' }

  /** The closing brackets for a stack of open ones. */
  function ClosersText(stack: seq<char>): string {
    if stack == [] then "" else [CloserOf(stack[|stack| - 1])] + ClosersText(stack[..|stack| - 1])
  }

  ghost predicate AllOpening(stack: seq<char>) { forall k :: 0 <= k < |stack| ==> IsOpening(stack[k]) }

  lemma {:induction false} ClosersTextCloses(stack: seq<char>)
    requires AllOpening(stack)
    ensures AllClosing(ClosersText(stack)) && Brackets(ClosersText(stack)) == Closers(stack)
  {
    if stack != [] {
      var top, rest := stack[|stack| - 1], stack[..|stack| - 1];
      ClosersTextCloses(rest);
      assert ClosersText(stack)[0] == CloserOf(top) && ClosersText(stack)[1..] == ClosersText(rest);
      BracketsOfSum([CloserOf(top)], ClosersText(rest));
      var mark := BracketMarks([CloserOf(top)]);
      assert mark == [Some(Close(top))] && mark[..0] == [];
      assert Tokens(mark) == [Close(top)];
    }
  }

  lemma {:induction false} StackIsOpening(stack: seq<char>, w: seq<Token<char>>)
    requires AllOpening(stack) && Read(stack, w).Some?
    requires forall k :: 0 <= k < |w| ==> w[k].Open? ==> IsOpening(w[k].kind)
    ensures AllOpening(Read(stack, w).value)
    decreases |w|
  {
    if w != [] {
      match w[0]
      case Open(k) => StackIsOpening(stack + [k], w[1..]);
      case Close(k) => StackIsOpening(stack[..|stack| - 1], w[1..]);
    }
  }

  lemma {:induction false} BracketsAreBrackets(t: string)
    ensures forall k :: 0 <= k < |Brackets(t)| ==> Brackets(t)[k].Open? ==> IsOpening(Brackets(t)[k].kind)
  {
    if t != [] {
      var last := |t| - 1;
      BracketsAreBrackets(t[..last]);
      assert BracketMarks(t)[..last] == BracketMarks(t[..last]);
      var rest := Brackets(t[..last]);
      match BracketMark(t[last])
      case None => assert Brackets(t) == rest;
      case Some(mark) =>
        assert Brackets(t) == rest + [mark];
    }
  }

  /** A source can be continued to pass the check exactly when its brackets, read after
      blanking, can be completed. */
  lemma CompletableExactly(s: string)
    ensures Completable(s) <==> Extendable(Brackets(Blanked(s)))
  {
    var w := Brackets(Blanked(s));
    if Completable(s) {
      var c: string :| Balanced(s + c);
      PrefixBrackets(s + c, |s|);
      assert (s + c)[..|s|] == s;
      var t := Blanked(s + c);
      BracketsOfSum(t[..|s|], t[|s|..]);
      assert t == t[..|s|] + t[|s|..];
      assert Nested(w + Brackets(t[|s|..]));
    }
    if Extendable(w) {
      ExtendableIffRead(w);
      var stack := Read([], w).value;
      BracketsAreBrackets(Blanked(s));
      StackIsOpening([], w);
      ClosersTextCloses(stack);
      var c := ContinuationExists([], s, ClosersText(stack));
      ReadClosers(stack);
      ReadAppend([], w, Closers(stack));
      NestedIffRead(w + Closers(stack));
      assert Balanced(s + c);
    }
  }

  /** The byte a closing-bracket fault names ends the shortest prefix of the source that no
      continuation can make pass the bracket check. */
  lemma ClosingFaultInSource(s: string, fault: Fault<char>)
    requires IsFault(BracketMarks(Blanked(s)), fault) && !fault.Unclosed?
    ensures fault.at < |s|
    ensures forall n :: 0 <= n <= |s| ==> (Completable(s[..n]) <==> n <= fault.at)
  {
    var marks := BracketMarks(Blanked(s));
    CloseFaultIsFirstDead(marks, fault);
    PrefixBrackets(s, 0);
    forall n | 0 <= n <= |s| ensures Completable(s[..n]) <==> n <= fault.at {
      CompletableExactly(s[..n]);
      PrefixBrackets(s, n);
      assert BracketMarks(Blanked(s)[..n]) == marks[..n];
      assert Extendable(Tokens(marks[..n])) <==> n <= fault.at;
    }
  }

  /** A source with an unclosed bracket does not pass, but it can be continued to pass. */
  lemma UnclosedInSource(s: string, fault: Fault<char>)
    requires IsFault(BracketMarks(Blanked(s)), fault) && fault.Unclosed?
    ensures !Balanced(s) && Completable(s)
  {
    FaultExcludesNested(BracketMarks(Blanked(s)), fault);
    CompletableExactly(s);
  }
}
