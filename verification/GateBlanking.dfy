/** Blanking of string literals, template literals and comments
    (internal/compile/compile.go, stripStringsAndComments). */
module GateBlanking {
  import opened GateText

  /** Operators and punctuators after which a quote opens a literal. */
  predicate IsOperandPunctuator(c: char) {
    c == '=' || c == '(' || c == '[' || c == '{' || c == ',' || c == ':' || c == '?' || c == '+' || c == '-' ||
    c == '*' || c == '/' || c == '%' || c == '&' || c == '|' || c == '^' || c == '~' || c == '!' || c == '<' ||
    c == '>' || c == ';' || c == '`'
  }

  /** May a quote that follows the text `p` open a string literal?  The answer looks
      only at text before the quote, which the scanner has already blanked. */
  predicate OpensString(p: string) {
    var q := Significant(p);
    q == [] ||
    var c := q[|q| - 1];
    IsOperandPunctuator(c) ||
    (IsNameStart(c) && IsOperandKeyword(LastWord(q)))
  }

  function Blank(c: char): char { if c == '\n' then '\n' else ' ' }

  /* The blanked form of the text a literal or comment takes from the front of `r`. */

  /** Up to, not including, the end of the line. */
  function LineComment(r: string): (t: string)
    ensures |t| <= |r|
  {
    if r == [] || r[0] == '\n' then [] else " " + LineComment(r[1..])
  }

  /** What follows the opening of a block comment, with its closing if there is one. */
  function BlockComment(r: string): (t: string)
    ensures |t| <= |r|
  {
    if r == [] then []
    else if |r| > 1 && r[0] == '*' && r[1] == '/' then "  "
    else [Blank(r[0])] + BlockComment(r[1..])
  }

  /** What follows an opening quote `q`: a raw newline ends the literal unconsumed. */
  function Quoted(r: string, q: char): (t: string)
    ensures |t| <= |r|
  {
    if r == [] then []
    else if r[0] == q then " "
    else if r[0] == '\n' then []
    else if r[0] == '\\' && |r| > 1 then "  " + Quoted(r[2..], q)
    else " " + Quoted(r[1..], q)
  }

  /** What follows an opening backtick: only unescaped newlines survive. */
  function Template(r: string): (t: string)
    ensures |t| <= |r|
  {
    if r == [] then []
    else if r[0] == '`' then " "
    else if r[0] == '\\' && |r| > 1 then "  " + Template(r[2..])
    else [Blank(r[0])] + Template(r[1..])
  }

  predicate OpensLineComment(r: string) { |r| > 1 && r[0] == '/' && r[1] == '/' }

  predicate OpensBlockComment(r: string) { |r| > 1 && r[0] == '/' && r[1] == '*' }

  predicate OpensQuoted(p: string, r: string) { r != [] && (r[0] == '"' || r[0] == '\'') && OpensString(p) }

  predicate OpensTemplate(r: string) { r != [] && r[0] == '`' }

  /** Does a literal or comment begin at the front of `r`, after the text `p`? */
  predicate OpensToken(p: string, r: string) {
    OpensLineComment(r) || OpensBlockComment(r) || OpensQuoted(p, r) || OpensTemplate(r)
  }

  /** The blanked form of the literal, comment or single byte at the front of `r`. */
  function Piece(p: string, r: string): (t: string)
    requires r != []
    ensures 0 < |t| <= |r|
  {
    if OpensLineComment(r) then LineComment(r)
    else if OpensBlockComment(r) then "  " + BlockComment(r[2..])
    else if OpensQuoted(p, r) then " " + Quoted(r[1..], r[0])
    else if OpensTemplate(r) then " " + Template(r[1..])
    else [r[0]]
  }

  /** Blanks `r`, which follows the already blanked text `p`. */
  function BlankFrom(p: string, r: string): string
    decreases |r|
  {
    if r == [] then p
    else var t := Piece(p, r); BlankFrom(p + t, r[|t|..])
  }

  function Blanked(s: string): string { BlankFrom([], s) }

  /* ---- One token ---- */

  /** At position `k`, `t` holds a space or the newline `r` has there, and loses a
      newline only right after a backslash. */
  predicate BlankAt(t: string, r: string, k: nat)
    requires k < |t| <= |r|
  {
    (t[k] == ' ' || (t[k] == '\n' && r[k] == '\n')) &&
    (r[k] == '\n' && t[k] == ' ' ==> k > 0 && r[k - 1] == '\\')
  }

  ghost predicate Blanks(t: string, r: string) {
    |t| <= |r| && forall k :: 0 <= k < |t| ==> BlankAt(t, r, k)
  }

  lemma BlanksAppend(t: string, u: string, r: string)
    requires Blanks(t, r) && Blanks(u, r[|t|..])
    ensures Blanks(t + u, r)
  {
    forall k | 0 <= k < |t + u|
      ensures BlankAt(t + u, r, k)
    {
      if k < |t| {
        assert BlankAt(t, r, k);
      } else {
        assert BlankAt(u, r[|t|..], k - |t|);
      }
    }
  }

  lemma {:induction false} LineCommentBlanks(r: string)
    ensures Blanks(LineComment(r), r)
  {
    if r != [] && r[0] != '\n' {
      LineCommentBlanks(r[1..]);
      BlanksAppend(" ", LineComment(r[1..]), r);
    }
  }

  lemma {:induction false} BlockCommentBlanks(r: string)
    ensures Blanks(BlockComment(r), r)
  {
    if r != [] && !(|r| > 1 && r[0] == '*' && r[1] == '/') {
      BlockCommentBlanks(r[1..]);
      BlanksAppend([Blank(r[0])], BlockComment(r[1..]), r);
    }
  }

  lemma {:induction false} QuotedBlanks(r: string, q: char)
    requires q != '\n'
    ensures Blanks(Quoted(r, q), r)
  {
    if r != [] && r[0] != q && r[0] != '\n' {
      if r[0] == '\\' && |r| > 1 {
        QuotedBlanks(r[2..], q);
        BlanksAppend("  ", Quoted(r[2..], q), r);
      } else {
        QuotedBlanks(r[1..], q);
        BlanksAppend(" ", Quoted(r[1..], q), r);
      }
    }
  }

  lemma {:induction false} TemplateBlanks(r: string)
    ensures Blanks(Template(r), r)
  {
    if r != [] && r[0] != '`' {
      if r[0] == '\\' && |r| > 1 {
        TemplateBlanks(r[2..]);
        BlanksAppend("  ", Template(r[2..]), r);
      } else {
        TemplateBlanks(r[1..]);
        BlanksAppend([Blank(r[0])], Template(r[1..]), r);
      }
    }
  }

  lemma TokenBlanks(p: string, r: string)
    requires r != [] && OpensToken(p, r)
    ensures Blanks(Piece(p, r), r)
  {
    if OpensLineComment(r) {
      LineCommentBlanks(r);
    } else if OpensBlockComment(r) {
      BlockCommentBlanks(r[2..]);
      BlanksAppend("  ", BlockComment(r[2..]), r);
    } else if OpensQuoted(p, r) {
      QuotedBlanks(r[1..], r[0]);
      BlanksAppend(" ", Quoted(r[1..], r[0]), r);
    } else {
      TemplateBlanks(r[1..]);
      BlanksAppend(" ", Template(r[1..]), r);
    }
  }

  /* ---- What blanking keeps ---- */

  /** No literal and no comment opens anywhere in `t`. */
  ghost predicate Clean(t: string) {
    forall i :: 0 <= i < |t| ==> !OpensToken(t[..i], t[i..])
  }

  /** No position of `p` opens a literal or comment in `p + r`. */
  ghost predicate CleanBefore(p: string, r: string) {
    forall i :: 0 <= i < |p| ==> !OpensToken(p[..i], p[i..] + r)
  }

  lemma CleanStep(p: string, r: string)
    requires r != [] && CleanBefore(p, r)
    ensures var t := Piece(p, r); CleanBefore(p + t, r[|t|..])
  {
    var t := Piece(p, r);
    if OpensToken(p, r) {
      TokenBlanks(p, r);
      assert BlankAt(t, r, 0);
    }
    var p', r' := p + t, r[|t|..];
    forall i | 0 <= i < |p'|
      ensures !OpensToken(p'[..i], p'[i..] + r')
    {
      if i < |p| {
        var u, v := p[i..] + r, p'[i..] + r';
        assert p'[..i] == p[..i] && !OpensToken(p[..i], u);
        assert v == p[i..] + (t + r');
        assert v[0] == u[0] && |v| == |u|;
        assert |u| > 1 ==> v[1] == u[1] || v[1] == ' ';
      } else if OpensToken(p, r) {
        assert BlankAt(t, r, i - |p|);
        assert (p'[i..] + r')[0] == t[i - |p|];
      } else {
        assert i == |p| && p'[..i] == p && p'[i..] + r' == r;
      }
    }
  }

  lemma {:induction false} BlankFromClean(p: string, r: string)
    requires CleanBefore(p, r)
    ensures Clean(BlankFrom(p, r))
    decreases |r|
  {
    if r == [] {
      assert forall i :: 0 <= i < |p| ==> p[i..] + r == p[i..];
    } else {
      var t := Piece(p, r);
      CleanStep(p, r);
      BlankFromClean(p + t, r[|t|..]);
    }
  }

  /** The blanked text contains no backtick and opens no comment or string literal. */
  lemma BlankedIsClean(s: string)
    ensures Clean(Blanked(s))
    ensures forall i :: 0 <= i < |Blanked(s)| ==> Blanked(s)[i] != '`'
    ensures forall i :: 0 <= i < |Blanked(s)| - 1 && Blanked(s)[i] == '/' ==>
              Blanked(s)[i + 1] != '/' && Blanked(s)[i + 1] != '*'
  {
    BlankFromClean([], s);
    var t := Blanked(s);
    forall i | 0 <= i < |t|
      ensures t[i] != '`' && (i < |t| - 1 && t[i] == '/' ==> t[i + 1] != '/' && t[i + 1] != '*')
    {
      assert !OpensToken(t[..i], t[i..]);
    }
  }

  lemma {:induction false} CleanIsFixed(t: string, i: nat)
    requires i <= |t| && Clean(t)
    ensures BlankFrom(t[..i], t[i..]) == t
    decreases |t| - i
  {
    if i < |t| {
      assert !OpensToken(t[..i], t[i..]);
      assert t[..i] + [t[i]] == t[..i + 1];
      CleanIsFixed(t, i + 1);
    } else {
      assert t[..i] == t;
    }
  }

  /** Blanking a blanked text changes nothing. */
  lemma BlankedIdempotent(s: string)
    ensures Blanked(Blanked(s)) == Blanked(s)
  {
    BlankedIsClean(s);
    CleanIsFixed(Blanked(s), 0);
    var t := Blanked(s);
    assert t[..0] == [] && t[0..] == t;
  }

  /** Position `k` keeps its byte or becomes a space; a newline is lost only right after
      a backslash. */
  predicate KeptOrBlank(t: string, s: string, k: nat)
    requires k < |t| <= |s|
  {
    (t[k] == s[k] || t[k] == ' ') &&
    (s[k] == '\n' && t[k] == ' ' ==> k > 0 && s[k - 1] == '\\')
  }

  ghost predicate OnlyBlanks(t: string, s: string) {
    |t| <= |s| && forall k :: 0 <= k < |t| ==> KeptOrBlank(t, s, k)
  }

  lemma {:induction false} BlankFromOnlyBlanks(p: string, r: string, s: string)
    requires |p| + |r| == |s| && r == s[|p|..]
    requires OnlyBlanks(p, s)
    ensures |BlankFrom(p, r)| == |s| && OnlyBlanks(BlankFrom(p, r), s)
    decreases |r|
  {
    if r != [] {
      var t := Piece(p, r);
      if OpensToken(p, r) { TokenBlanks(p, r); }
      forall k | 0 <= k < |p + t|
        ensures KeptOrBlank(p + t, s, k)
      {
        if k < |p| {
          assert KeptOrBlank(p, s, k);
        } else if OpensToken(p, r) {
          assert BlankAt(t, r, k - |p|);
        }
      }
      BlankFromOnlyBlanks(p + t, r[|t|..], s);
    }
  }

  /** Length is kept, every byte is kept or becomes a space, and a newline is lost only
      when a backslash directly precedes it. */
  lemma BlankedOnlyBlanks(s: string)
    ensures |Blanked(s)| == |s| && OnlyBlanks(Blanked(s), s)
  {
    BlankFromOnlyBlanks([], s, s);
  }

  ghost predicate NoEscapedNewline(s: string) {
    forall k :: 0 < k < |s| && s[k] == '\n' ==> s[k - 1] != '\\'
  }

  /** Without a backslash directly before a newline, line numbers in the blanked text
      are line numbers of the source. */
  lemma BlankedKeepsLines(s: string, i: nat)
    requires NoEscapedNewline(s) && i <= |s|
    ensures |Blanked(s)| == |s| && LineOf(Blanked(s), i) == LineOf(s, i)
  {
    BlankedOnlyBlanks(s);
    var t := Blanked(s);
    forall k | 0 <= k < i
      ensures t[k] == '\n' <==> s[k] == '\n'
    {
      assert KeptOrBlank(t, s, k);
    }
    SameNewlinesSameLines(t, s, i);
  }

  /* ---- Exactly which texts lose a line ---- */

  predicate QuotedLosesLine(r: string, q: char) {
    r != [] && r[0] != q && r[0] != '\n' &&
    if r[0] == '\\' && |r| > 1 then r[1] == '\n' || QuotedLosesLine(r[2..], q)
    else QuotedLosesLine(r[1..], q)
  }

  predicate TemplateLosesLine(r: string) {
    r != [] && r[0] != '`' &&
    if r[0] == '\\' && |r| > 1 then r[1] == '\n' || TemplateLosesLine(r[2..])
    else TemplateLosesLine(r[1..])
  }

  /** The literal at the front of `r` escapes a newline with a backslash. */
  predicate TokenLosesLine(p: string, r: string) {
    r != [] && !OpensLineComment(r) && !OpensBlockComment(r) &&
    if OpensQuoted(p, r) then QuotedLosesLine(r[1..], r[0])
    else OpensTemplate(r) && TemplateLosesLine(r[1..])
  }

  /** Some literal of `r`, read after the blanked text `p`, escapes a newline. */
  predicate LosesLine(p: string, r: string)
    decreases |r|
  {
    r != [] &&
    (TokenLosesLine(p, r) || var t := Piece(p, r); LosesLine(p + t, r[|t|..]))
  }

  ghost predicate KeepsNewlines(t: string, r: string) {
    |t| <= |r| && forall k :: 0 <= k < |t| && r[k] == '\n' ==> t[k] == '\n'
  }

  lemma KeepsNewlinesAppend(t: string, u: string, r: string)
    requires |t| + |u| <= |r|
    ensures KeepsNewlines(t + u, r) <==> KeepsNewlines(t, r) && KeepsNewlines(u, r[|t|..])
  {
    if KeepsNewlines(t + u, r) {
      forall k | 0 <= k < |t| && r[k] == '\n'
        ensures t[k] == '\n'
      {
        assert (t + u)[k] == t[k];
      }
      forall k | 0 <= k < |u| && r[|t|..][k] == '\n'
        ensures u[k] == '\n'
      {
        assert (t + u)[|t| + k] == u[k];
      }
    }
  }

  lemma {:induction false} QuotedKeeps(r: string, q: char)
    requires q != '\n'
    ensures KeepsNewlines(Quoted(r, q), r) <==> !QuotedLosesLine(r, q)
  {
    if r != [] && r[0] != q && r[0] != '\n' {
      if r[0] == '\\' && |r| > 1 {
        QuotedKeeps(r[2..], q);
        KeepsNewlinesAppend("  ", Quoted(r[2..], q), r);
        assert KeepsNewlines("  ", r) <==> r[1] != '\n' by { assert "  "[1] == ' '; }
      } else {
        QuotedKeeps(r[1..], q);
        KeepsNewlinesAppend(" ", Quoted(r[1..], q), r);
      }
    }
  }

  lemma {:induction false} TemplateKeeps(r: string)
    ensures KeepsNewlines(Template(r), r) <==> !TemplateLosesLine(r)
  {
    if r != [] && r[0] != '`' {
      if r[0] == '\\' && |r| > 1 {
        TemplateKeeps(r[2..]);
        KeepsNewlinesAppend("  ", Template(r[2..]), r);
        assert KeepsNewlines("  ", r) <==> r[1] != '\n' by { assert "  "[1] == ' '; }
      } else {
        TemplateKeeps(r[1..]);
        KeepsNewlinesAppend([Blank(r[0])], Template(r[1..]), r);
      }
    }
  }

  lemma {:induction false} BlockCommentKeeps(r: string)
    ensures KeepsNewlines(BlockComment(r), r)
  {
    if r != [] && !(|r| > 1 && r[0] == '*' && r[1] == '/') {
      BlockCommentKeeps(r[1..]);
      KeepsNewlinesAppend([Blank(r[0])], BlockComment(r[1..]), r);
    }
  }

  lemma {:induction false} LineCommentKeeps(r: string)
    ensures KeepsNewlines(LineComment(r), r)
  {
    if r != [] && r[0] != '\n' {
      LineCommentKeeps(r[1..]);
      KeepsNewlinesAppend(" ", LineComment(r[1..]), r);
    }
  }

  lemma TokenKeeps(p: string, r: string)
    requires r != []
    ensures KeepsNewlines(Piece(p, r), r) <==> !TokenLosesLine(p, r)
  {
    if OpensLineComment(r) {
      LineCommentKeeps(r);
    } else if OpensBlockComment(r) {
      BlockCommentKeeps(r[2..]);
      KeepsNewlinesAppend("  ", BlockComment(r[2..]), r);
    } else if OpensQuoted(p, r) {
      QuotedKeeps(r[1..], r[0]);
      KeepsNewlinesAppend(" ", Quoted(r[1..], r[0]), r);
    } else if OpensTemplate(r) {
      TemplateKeeps(r[1..]);
      KeepsNewlinesAppend(" ", Template(r[1..]), r);
    }
  }

  lemma {:induction false} BlankFromPrefix(p: string, r: string)
    ensures |BlankFrom(p, r)| == |p| + |r| && BlankFrom(p, r)[..|p|] == p
    decreases |r|
  {
    if r != [] {
      var t := Piece(p, r);
      BlankFromPrefix(p + t, r[|t|..]);
      assert BlankFrom(p, r)[..|p|] == BlankFrom(p, r)[..|p + t|][..|p|];
    }
  }

  lemma {:induction false} BlankFromKeeps(p: string, r: string)
    ensures |BlankFrom(p, r)| == |p| + |r|
    ensures KeepsNewlines(BlankFrom(p, r)[|p|..], r) <==> !LosesLine(p, r)
    decreases |r|
  {
    BlankFromPrefix(p, r);
    if r != [] {
      var t := Piece(p, r);
      var rest := BlankFrom(p + t, r[|t|..]);
      BlankFromKeeps(p + t, r[|t|..]);
      BlankFromPrefix(p + t, r[|t|..]);
      TokenKeeps(p, r);
      KeepsNewlinesAppend(t, rest[|p + t|..], r);
      AfterPrefix(rest, p, t);
    }
  }

  lemma AfterPrefix(w: string, p: string, t: string)
    requires |p + t| <= |w| && w[..|p + t|] == p + t
    ensures w[|p|..] == t + w[|p + t|..]
  {
    assert w == (p + t) + w[|p + t|..];
    assert w == p + (t + w[|p + t|..]);
  }

  /** Every line number survives blanking exactly when no string or template literal
      escapes a newline. */
  lemma {:induction false} LinesKeptExactly(s: string)
    ensures |Blanked(s)| == |s|
    ensures (forall i :: 0 <= i <= |s| ==> LineOf(Blanked(s), i) == LineOf(s, i)) <==> !LosesLine([], s)
  {
    var t := Blanked(s);
    BlankedOnlyBlanks(s);
    BlankFromKeeps([], s);
    assert t[0..] == t;
    if !LosesLine([], s) {
      forall i | 0 <= i <= |s|
        ensures LineOf(t, i) == LineOf(s, i)
      {
        forall k | 0 <= k < i
          ensures t[k] == '\n' <==> s[k] == '\n'
        {
          assert KeptOrBlank(t, s, k);
        }
        SameNewlinesSameLines(t, s, i);
      }
    } else {
      var k :| 0 <= k < |t| && s[k] == '\n' && t[k] != '\n';
      LineOfNext(s, k);
      LineOfNext(t, k);
    }
  }

  /** A text that loses one: the bracket is on line 2, the gate sees it on line 1. */
  lemma EscapedNewlineLosesLine()
    ensures LosesLine([], "`\\\n`)")
  {
    var s := "`\\\n`)";
    assert s[1..] == "\\\n`)";
    assert TemplateLosesLine(s[1..]);
  }
}
