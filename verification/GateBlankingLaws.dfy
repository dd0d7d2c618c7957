/** What blanking does to a text, read off the text itself: after which bytes a quote opens a
    literal, how far literals and comments reach and what is left of them
    (internal/compile/compile.go, isStringStartPos and stripStringsAndComments). */
module GateBlankingLaws {
  import opened GateText
  import opened GateBlanking
  import opened GateLookBack

  predicate IsQuote(q: char) { q == '"' || q == '\'' }

  function Spaces(n: nat): (t: string)
    ensures |t| == n
  {
    seq(n, _ => ' ')
  }

  /** An odd number of backslashes stands directly before position `k`. */
  predicate Escaped(w: string, k: nat)
    requires k <= |w|
  {
    k > 0 && w[k - 1] == '\\' && !Escaped(w, k - 1)
  }

  /** Every byte of `stops` in `w` is escaped. */
  ghost predicate Runs(w: string, stops: string) {
    forall k :: 0 <= k < |w| && w[k] in stops ==> Escaped(w, k)
  }

  /** `s` ends a literal whose body is `w`: it is empty, or begins with an unescaped stop. */
  ghost predicate EndsAt(w: string, s: string, stops: string) {
    s == "" || (s[0] in stops && !Escaped(w, |w|))
  }

  /** How many bytes of `s` the closing quote takes. */
  function Closing(s: string, q: char): (n: nat)
    ensures n <= |s|
  { if s != "" && s[0] == q then 1 else 0
  }

  lemma {:induction false} EscapedLater(w: string, n: nat, k: nat)
    requires n <= k <= |w| && !Escaped(w, n)
    ensures Escaped(w[n..], k - n) == Escaped(w, k)
    decreases k
  {
    if k > n {
      EscapedLater(w, n, k - 1);
    }
  }

  lemma RunsLater(w: string, n: nat, stops: string)
    requires n <= |w| && !Escaped(w, n) && Runs(w, stops)
    ensures Runs(w[n..], stops) && Escaped(w[n..], |w| - n) == Escaped(w, |w|)
  {
    forall k | 0 <= k < |w| - n && w[n..][k] in stops ensures Escaped(w[n..], k) {
      EscapedLater(w, n, n + k);
    }
    EscapedLater(w, n, |w|);
  }

  /* ---- Quoted literals ---- */

  lemma {:induction false} BodyIsBlanked(w: string, s: string, q: char)
    requires IsQuote(q) && Runs(w, [q, '\n']) && EndsAt(w, s, [q, '\n'])
    ensures Quoted(w + s, q) == Spaces(|w| + Closing(s, q))
    decreases |w|
  {
    if w == "" {
      assert w + s == s;
    } else if |w| == 1 && w[0] == '\\' {
      assert Escaped(w, 1);
      assert w + s == w;
      assert Quoted(w[1..], q) == "";
    } else {
      var n := if w[0] == '\\' then 2 else 1;
      assert !Escaped(w, 0) && !Escaped(w, n) by { assert Escaped(w, 1) <==> w[0] == '\\'; }
      assert (w + s)[n..] == w[n..] + s;
      RunsLater(w, n, [q, '\n']);
      BodyIsBlanked(w[n..], s, q);
      assert Quoted(w + s, q) == Spaces(n) + Quoted((w + s)[n..], q);
    }
  }

  lemma {:induction false} PieceComesFirst(p: string, r: string, t: string, rest: string)
    requires r != [] && Piece(p, r) == t && r[|t|..] == rest
    ensures BlankFrom(p, r) == BlankFrom(p + t, rest)
  {
  }

  lemma {:induction false} LiteralPiece(p: string, q: char, r: string)
    requires OpensString(p) && IsQuote(q)
    ensures Piece(p, [q] + r) == " " + Quoted(r, q)
  {
    hide OpensString;
    assert ([q] + r)[1..] == r;
  }

  lemma OneMoreSpace(n: nat)
    ensures " " + Spaces(n) == Spaces(1 + n)
  {
  }

  /** A quote where a literal may open: the literal reaches to the first unescaped quote of its
      kind, or to a newline or the end of the text before one. */
  lemma {:induction false} LiteralIsBlanked(p: string, q: char, w: string, s: string)
    requires OpensString(p) && IsQuote(q) && Runs(w, [q, '\n']) && EndsAt(w, s, [q, '\n'])
    ensures var n := Closing(s, q); BlankFrom(p, [q] + w + s) == BlankFrom(p + Spaces(1 + |w| + n), s[n..])
  {
    hide *;
    var n, r := Closing(s, q), [q] + w + s;
    assert r == [q] + (w + s);
    assert Piece(p, r) == Spaces(1 + |w| + n) by {
      BodyIsBlanked(w, s, q);
      LiteralPiece(p, q, w + s);
      assert " " + Spaces(|w| + n) == Spaces(1 + |w| + n) by { OneMoreSpace(|w| + n); }
    }
    assert r[1 + |w| + n..] == s[n..];
    PieceComesFirst(p, r, Spaces(1 + |w| + n), s[n..]);
  }

  lemma OpensAfterWord(p: string, word: string, v: string)
    requires WordAfter(p, word) && White(v)
    ensures OpensString(p + word + v) <==> word in KEYWORDS
  {
    hide IsOperandKeyword, KEYWORDS;
    WordIsFound(p, word, v);
    KeywordsAgree(word);
    assert (p + word)[|p + word| - 1] == word[|word| - 1];
  }

  /** A quote at the start of a text opens a literal. */
  lemma {:induction false} LiteralAtStart(v: string, q: char, w: string, s: string)
    requires White(v) && IsQuote(q) && Runs(w, [q, '\n']) && EndsAt(w, s, [q, '\n'])
    ensures var n := Closing(s, q); BlankFrom(v, [q] + w + s) == BlankFrom(v + Spaces(1 + |w| + n), s[n..])
  {
    WhiteIsNothing(v);
    LiteralIsBlanked(v, q, w, s);
  }

  /** So does one after an operator or an opening punctuator. */
  lemma {:induction false} LiteralAfterOperator(p: string, c: char, v: string, q: char, w: string, s: string)
    requires c in "=([{,:?+-*/%&|^~!<>;`" && White(v)
    requires IsQuote(q) && Runs(w, [q, '\n']) && EndsAt(w, s, [q, '\n'])
    ensures var u, n := p + [c] + v, Closing(s, q);
            BlankFrom(u, [q] + w + s) == BlankFrom(u + Spaces(1 + |w| + n), s[n..])
  {
    WhiteIsPassed(p, c, v);
    LiteralIsBlanked(p + [c] + v, q, w, s);
  }

  /** So does one after a word, exactly when the word is a keyword that a value must follow. */
  lemma {:induction false} LiteralAfterKeyword(p: string, word: string, v: string, q: char, w: string, s: string)
    requires WordAfter(p, word) && word in KEYWORDS && White(v)
    requires IsQuote(q) && Runs(w, [q, '\n']) && EndsAt(w, s, [q, '\n'])
    ensures var u, n := p + word + v, Closing(s, q);
            BlankFrom(u, [q] + w + s) == BlankFrom(u + Spaces(1 + |w| + n), s[n..])
  {
    hide OpensString, Significant, LastWord;
    OpensAfterWord(p, word, v);
    LiteralIsBlanked(p + word + v, q, w, s);
  }

  /* ---- Quotes that are kept ---- */

  lemma {:induction false} QuoteIsKept(p: string, q: char, r: string)
    requires !OpensString(p) && IsQuote(q)
    ensures BlankFrom(p, [q] + r) == BlankFrom(p + [q], r)
  {
    assert ([q] + r)[1..] == r;
  }

  lemma {:induction false} QuoteKeptAfterWord(p: string, word: string, v: string, q: char, r: string)
    requires WordAfter(p, word) && word !in KEYWORDS && White(v) && IsQuote(q)
    ensures BlankFrom(p + word + v, [q] + r) == BlankFrom(p + word + v + [q], r)
  {
    hide OpensString;
    OpensAfterWord(p, word, v);
    QuoteIsKept(p + word + v, q, r);
  }

  /** After a closing bracket, a full stop, a quote, a digit and any other byte that is neither
      an operator nor a letter. */
  lemma {:induction false} QuoteKeptAfterOther(p: string, c: char, v: string, q: char, r: string)
    requires c !in "=([{,:?+-*/%&|^~!<>;`" && c !in " \t\n\r" && !Letter(c) && White(v) && IsQuote(q)
    ensures BlankFrom(p + [c] + v, [q] + r) == BlankFrom(p + [c] + v + [q], r)
  {
    WhiteIsPassed(p, c, v);
    QuoteIsKept(p + [c] + v, q, r);
  }

  /* ---- Template literals, comments and everything else ---- */

  /** `w` in spaces, but for its unescaped newlines. */
  function TemplateRest(w: string): (t: string)
    ensures |t| == |w|
  {
    seq(|w|, k requires 0 <= k < |w| => if w[k] == '\n' && !Escaped(w, k) then '\n' else ' ')
  }

  /** `w` in spaces, but for its newlines. */
  function CommentRest(w: string): (t: string)
    ensures |t| == |w|
  {
    seq(|w|, k requires 0 <= k < |w| => if w[k] == '\n' then '\n' else ' ')
  }

  lemma {:induction false} TemplateRestLater(w: string, n: nat)
    requires n <= |w| && !Escaped(w, n)
    ensures TemplateRest(w)[n..] == TemplateRest(w[n..])
  {
    hide Escaped;
    var x, y := TemplateRest(w), TemplateRest(w[n..]);
    forall k | 0 <= k < |w| - n ensures x[n..][k] == y[k] {
      EscapedLater(w, n, n + k);
      assert x[n..][k] == x[n + k] && w[n..][k] == w[n + k];
    }
  }

  lemma {:induction false} TemplateBodyIsBlanked(w: string, s: string)
    requires Runs(w, "`") && EndsAt(w, s, "`")
    ensures Template(w + s) == TemplateRest(w) + Spaces(Closing(s, '`'))
    decreases |w|
  {
    if w == "" {
      assert w + s == s;
    } else if |w| == 1 && w[0] == '\\' {
      assert Escaped(w, 1);
      assert w + s == w;
      assert Template(w[1..]) == "";
    } else {
      var n := if w[0] == '\\' then 2 else 1;
      assert !Escaped(w, 0) && !Escaped(w, n) by { assert Escaped(w, 1) <==> w[0] == '\\'; }
      assert (w + s)[n..] == w[n..] + s;
      RunsLater(w, n, "`");
      TemplateBodyIsBlanked(w[n..], s);
      TemplateRestLater(w, n);
      assert TemplateRest(w) == TemplateRest(w)[..n] + TemplateRest(w[n..]);
      assert TemplateRest(w)[..n] == if n == 2 then "  " else [Blank(w[0])] by { assert Escaped(w, 1) <==> w[0] == '\\'; }
      assert Template(w + s) == TemplateRest(w)[..n] + Template((w + s)[n..]);
    }
  }

  /** A backtick opens a template literal anywhere; only unescaped newlines are left of it. */
  lemma {:induction false} TemplateIsBlanked(p: string, w: string, s: string)
    requires Runs(w, "`") && EndsAt(w, s, "`")
    ensures var n := Closing(s, '`');
            BlankFrom(p, "`" + w + s) == BlankFrom(p + " " + TemplateRest(w) + Spaces(n), s[n..])
  {
    var n, r := Closing(s, '`'), "`" + w + s;
    assert r[1..] == w + s;
    TemplateBodyIsBlanked(w, s);
    assert p + Piece(p, r) == p + " " + TemplateRest(w) + Spaces(n);
    assert r[1 + |w| + n..] == s[n..];
  }

  lemma {:induction false} LineIsBlanked(w: string, s: string)
    requires '\n' !in w && (s == "" || s[0] == '\n')
    ensures LineComment(w + s) == Spaces(|w|)
  {
    if w == "" {
      assert w + s == s;
    } else {
      assert (w + s)[1..] == w[1..] + s;
      LineIsBlanked(w[1..], s);
    }
  }

  /** A line comment is blanked up to the newline that ends it. */
  lemma {:induction false} LineCommentIsBlanked(p: string, w: string, s: string)
    requires '\n' !in w && (s == "" || s[0] == '\n')
    ensures BlankFrom(p, "//" + w + s) == BlankFrom(p + Spaces(2 + |w|), s)
  {
    LineIsBlanked("//" + w, s);
    var r := "//" + w + s;
    assert Piece(p, r) == Spaces(2 + |w|) && r[2 + |w|..] == s;
  }

  /** No end of a block comment begins inside `w`. */
  ghost predicate NoCommentEnd(w: string, s: string) {
    forall k :: 0 <= k < |w| ==> !("*/" <= (w + s)[k..])
  }

  lemma {:induction false} CommentBodyIsBlanked(w: string, s: string)
    requires NoCommentEnd(w, s) && (s == "" || "*/" <= s)
    ensures BlockComment(w + s) == CommentRest(w) + Spaces(if s == "" then 0 else 2)
  {
    if w == "" {
      assert w + s == s;
    } else {
      assert (w + s)[0..] == w + s && (w + s)[1..] == w[1..] + s;
      assert !("*/" <= (w + s)[0..]);
      forall k | 0 <= k < |w| - 1 ensures !("*/" <= (w[1..] + s)[k..]) {
        assert (w[1..] + s)[k..] == (w + s)[k + 1..];
      }
      CommentBodyIsBlanked(w[1..], s);
      assert CommentRest(w) == [Blank(w[0])] + CommentRest(w[1..]);
    }
  }

  /** A block comment is blanked up to and with its first end, or to the end of the text; its
      newlines are kept. */
  lemma {:induction false} BlockCommentIsBlanked(p: string, w: string, s: string)
    requires NoCommentEnd(w, s) && (s == "" || "*/" <= s)
    ensures var n := if s == "" then 0 else 2;
            BlankFrom(p, "/*" + w + s) == BlankFrom(p + "  " + CommentRest(w) + Spaces(n), s[n..])
  {
    var n, r := if s == "" then 0 else 2, "/*" + w + s;
    assert r[2..] == w + s;
    CommentBodyIsBlanked(w, s);
    assert p + Piece(p, r) == p + "  " + CommentRest(w) + Spaces(n);
    assert r[2 + |w| + n..] == s[n..];
  }

  /** Any other byte is kept, and so is a slash that opens no comment. */
  lemma {:induction false} OtherByteIsKept(p: string, c: char, r: string)
    requires c !in "\"'`" && (c == '/' && r != "" ==> r[0] !in "/*")
    ensures BlankFrom(p, [c] + r) == BlankFrom(p + [c], r)
  {
    assert ([c] + r)[1..] == r;
  }
}
