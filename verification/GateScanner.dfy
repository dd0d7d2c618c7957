/** The in-place scanner: a byte buffer is overwritten while the look-back reads the
    part already overwritten (internal/compile/compile.go). */
module GateScanner {
  import opened GateText
  import opened GateBlanking

  /** The position after the last significant byte before `i`. */
  method SkipSpaceBack(t: string, i: nat) returns (k: nat)
    requires i <= |t|
    ensures k <= i && t[..k] == Significant(t[..i])
  {
    k := i;
    while k > 0 && IsSpace(t[k - 1])
      invariant k <= i
      invariant Significant(t[..i]) == Significant(t[..k])
    {
      assert t[..k][..k - 1] == t[..k - 1];
      k := k - 1;
    }
  }

  /** Where the word that ends at position `k` starts. */
  method SkipWordBack(t: string, k: nat) returns (start: nat)
    requires k <= |t|
    ensures start <= k && t[start..k] == LastWord(t[..k])
  {
    start := k;
    while start > 0 && IsNameChar(t[start - 1])
      invariant start <= k
      invariant WordStart(t[..k]) == WordStart(t[..start])
    {
      assert t[..start][..start - 1] == t[..start - 1];
      start := start - 1;
    }
    assert t[..k][start..] == t[start..k];
  }

  /** May a quote at position `i` open a string literal? */
  method IsStringStartPos(t: string, i: nat) returns (r: bool)
    requires i <= |t|
    ensures r == OpensString(t[..i])
  {
    var k := SkipSpaceBack(t, i);
    if k == 0 {
      return true;
    }
    var c := t[k - 1];
    if IsOperandPunctuator(c) {
      return true;
    }
    if !IsNameStart(c) {
      return false;
    }
    var start := SkipWordBack(t, k);
    r := IsOperandKeyword(t[start..k]);
  }

  /* The scanning loops: `s` is the whole text and `u` its blanked form.  The predicates
     below spell out, byte by byte, what the rest of a literal or comment from position
     `j` up to position `e` turns into. */

  /** Before `j` the buffer is blanked, from `j` on it still holds the source. */
  ghost predicate Progress(b: array<char>, j: nat, u: string, s: string)
    reads b
  {
    b.Length == |u| == |s| && j <= |s| &&
    (forall k :: 0 <= k < j ==> b[k] == u[k]) && forall k :: j <= k < |s| ==> b[k] == s[k]
  }

  ghost predicate LineCommentAt(s: string, u: string, j: nat, e: nat)
    requires |s| == |u|
    decreases |s| - j
  {
    if j >= |s| || s[j] == '\n' then e == j
    else u[j] == ' ' && LineCommentAt(s, u, j + 1, e)
  }

  ghost predicate BlockCommentAt(s: string, u: string, j: nat, e: nat)
    requires |s| == |u|
    decreases |s| - j
  {
    if j >= |s| then e == j
    else if j + 1 < |s| && s[j] == '*' && s[j + 1] == '/' then u[j] == u[j + 1] == ' ' && e == j + 2
    else u[j] == Blank(s[j]) && BlockCommentAt(s, u, j + 1, e)
  }

  ghost predicate QuotedAt(s: string, u: string, j: nat, e: nat, q: char)
    requires |s| == |u|
    decreases |s| - j
  {
    if j >= |s| then e == j
    else if s[j] == q then u[j] == ' ' && e == j + 1
    else if s[j] == '\n' then e == j
    else if s[j] == '\\' && j + 1 < |s| then u[j] == u[j + 1] == ' ' && QuotedAt(s, u, j + 2, e, q)
    else u[j] == ' ' && QuotedAt(s, u, j + 1, e, q)
  }

  ghost predicate TemplateAt(s: string, u: string, j: nat, e: nat)
    requires |s| == |u|
    decreases |s| - j
  {
    if j >= |s| then e == j
    else if s[j] == '`' then u[j] == ' ' && e == j + 1
    else if s[j] == '\\' && j + 1 < |s| then u[j] == u[j + 1] == ' ' && TemplateAt(s, u, j + 2, e)
    else u[j] == Blank(s[j]) && TemplateAt(s, u, j + 1, e)
  }

  /** Reading `t` in `u` from position `j` on is reading its first byte and then the rest. */
  lemma Sliced(u: string, j: nat, n: nat, t: string)
    requires n <= |t| && j + |t| <= |u| && u[j..j + |t|] == t
    ensures forall k :: 0 <= k < |t| ==> u[j + k] == t[k]
    ensures u[j + n..j + n + |t[n..]|] == t[n..]
  {
    forall k | 0 <= k < |t| ensures u[j + k] == t[k] {
      assert u[j..j + |t|][k] == u[j + k];
    }
  }

  lemma {:induction false} LineCommentReads(s: string, u: string, j: nat)
    requires j <= |s| == |u|
    requires var t := LineComment(s[j..]); u[j..j + |t|] == t
    ensures LineCommentAt(s, u, j, j + |LineComment(s[j..])|)
    decreases |s| - j
  {
    var t := LineComment(s[j..]);
    if j < |s| && s[j] != '\n' {
      assert s[j..][1..] == s[j + 1..] && t[1..] == LineComment(s[j + 1..]);
      Sliced(u, j, 1, t);
      LineCommentReads(s, u, j + 1);
    }
  }

  lemma {:induction false} BlockCommentReads(s: string, u: string, j: nat)
    requires j <= |s| == |u|
    requires var t := BlockComment(s[j..]); u[j..j + |t|] == t
    ensures BlockCommentAt(s, u, j, j + |BlockComment(s[j..])|)
    decreases |s| - j
  {
    var t := BlockComment(s[j..]);
    Sliced(u, j, 0, t);
    if j < |s| && !(j + 1 < |s| && s[j] == '*' && s[j + 1] == '/') {
      assert s[j..][1..] == s[j + 1..] && t[1..] == BlockComment(s[j + 1..]);
      Sliced(u, j, 1, t);
      BlockCommentReads(s, u, j + 1);
    }
  }

  lemma {:induction false} QuotedReads(s: string, u: string, j: nat, q: char)
    requires j <= |s| == |u|
    requires var t := Quoted(s[j..], q); u[j..j + |t|] == t
    ensures QuotedAt(s, u, j, j + |Quoted(s[j..], q)|, q)
    decreases |s| - j
  {
    var t := Quoted(s[j..], q);
    Sliced(u, j, 0, t);
    if j < |s| && s[j] != q && s[j] != '\n' {
      var n := if s[j] == '\\' && j + 1 < |s| then 2 else 1;
      assert s[j..][n..] == s[j + n..] && t[n..] == Quoted(s[j + n..], q);
      Sliced(u, j, n, t);
      QuotedReads(s, u, j + n, q);
    }
  }

  lemma {:induction false} TemplateReads(s: string, u: string, j: nat)
    requires j <= |s| == |u|
    requires var t := Template(s[j..]); u[j..j + |t|] == t
    ensures TemplateAt(s, u, j, j + |Template(s[j..])|)
    decreases |s| - j
  {
    var t := Template(s[j..]);
    Sliced(u, j, 0, t);
    if j < |s| && s[j] != '`' {
      var n := if s[j] == '\\' && j + 1 < |s| then 2 else 1;
      assert s[j..][n..] == s[j + n..] && t[n..] == Template(s[j + n..]);
      assert t[..n] == if n == 2 then "  " else [Blank(s[j])];
      Sliced(u, j, n, t);
      assert u[j] == t[0] && (n == 2 ==> u[j + 1] == t[1]);
      TemplateReads(s, u, j + n);
    }
  }

  /** Overwrites a line comment that starts at `i`; returns the position after it. */
  method BlankLineComment(b: array<char>, i: nat, ghost e: nat, ghost u: string, ghost s: string) returns (j: nat)
    requires Progress(b, i, u, s) && LineCommentAt(s, u, i, e)
    modifies b
    ensures j == e && Progress(b, e, u, s)
  {
    j := i;
    while j < b.Length && b[j] != '\n'
      invariant Progress(b, j, u, s) && LineCommentAt(s, u, j, e)
    {
      b[j] := ' ';
      j := j + 1;
    }
  }

  /** Overwrites the rest of a block comment from `i` on. */
  method BlankBlockComment(b: array<char>, i: nat, ghost e: nat, ghost u: string, ghost s: string) returns (j: nat)
    requires Progress(b, i, u, s) && BlockCommentAt(s, u, i, e)
    modifies b
    ensures j == e && Progress(b, e, u, s)
  {
    j := i;
    while j < b.Length && !(j + 1 < b.Length && b[j] == '*' && b[j + 1] == '/')
      invariant Progress(b, j, u, s) && BlockCommentAt(s, u, j, e)
    {
      if b[j] != '\n' {
        b[j] := ' ';
      }
      j := j + 1;
    }
    if j + 1 < b.Length {
      b[j], b[j + 1] := ' ', ' ';
      j := j + 2;
    }
  }

  /** Overwrites the rest of a literal quoted by `q` from `i` on. */
  method BlankQuoted(b: array<char>, i: nat, q: char, ghost e: nat, ghost u: string, ghost s: string)
    returns (j: nat)
    requires Progress(b, i, u, s) && QuotedAt(s, u, i, e, q)
    modifies b
    ensures j == e && Progress(b, e, u, s)
  {
    j := i;
    while j < b.Length && b[j] != q
      invariant Progress(b, j, u, s) && QuotedAt(s, u, j, e, q)
    {
      if b[j] == '\n' {
        break;
      }
      if b[j] == '\\' && j + 1 < b.Length {
        b[j] := ' ';
        b[j + 1] := ' ';
        j := j + 2;
        continue;
      }
      b[j] := ' ';
      j := j + 1;
    }
    if j < b.Length && b[j] == q {
      b[j] := ' ';
      j := j + 1;
    }
  }

  /** Overwrites the rest of a template literal from `i` on. */
  method BlankTemplate(b: array<char>, i: nat, ghost e: nat, ghost u: string, ghost s: string) returns (j: nat)
    requires Progress(b, i, u, s) && TemplateAt(s, u, i, e)
    modifies b
    ensures j == e && Progress(b, e, u, s)
  {
    j := i;
    while j < b.Length && b[j] != '`'
      invariant Progress(b, j, u, s) && TemplateAt(s, u, j, e)
    {
      if b[j] == '\\' && j + 1 < b.Length {
        b[j] := ' ';
        b[j + 1] := ' ';
        j := j + 2;
        continue;
      }
      if b[j] != '\n' {
        b[j] := ' ';
      }
      j := j + 1;
    }
    if j < b.Length {
      b[j] := ' ';
      j := j + 1;
    }
  }

  /** What the literal, comment or byte at position `i` turns into, up to position `e`. */
  ghost predicate TokenAt(s: string, u: string, i: nat, e: nat)
    requires i < |s| == |u|
  {
    var second := if i + 1 < |s| then s[i + 1] else ' ';
    if s[i] == '/' && second == '/' then LineCommentAt(s, u, i, e)
    else if s[i] == '/' && second == '*' then u[i] == u[i + 1] == ' ' && BlockCommentAt(s, u, i + 2, e)
    else if (s[i] == '"' || s[i] == '\'') && OpensString(u[..i]) then
      u[i] == ' ' && QuotedAt(s, u, i + 1, e, s[i])
    else if s[i] == '`' then u[i] == ' ' && TemplateAt(s, u, i + 1, e)
    else u[i] == s[i] && e == i + 1
  }

  /** Where `u` holds `head + rest` it holds `head` and then `rest`. */
  lemma SlicedTail(u: string, i: nat, head: string, rest: string)
    requires head != [] && i + |head + rest| <= |u| && u[i..i + |head + rest|] == head + rest
    ensures u[i] == head[0] && (|head| > 1 ==> u[i + 1] == head[1])
    ensures u[i + |head|..i + |head| + |rest|] == rest
  {
    var t := head + rest;
    var w := u[i..i + |t|];
    assert w[0] == t[0] == head[0];
    assert |head| > 1 ==> w[1] == t[1] == head[1];
    assert w[|head|..] == t[|head|..] == rest;
    assert u[i + |head|..i + |t|] == w[|head|..];
  }

  lemma TailOfTail(s: string, i: nat, n: nat)
    requires i + n <= |s|
    ensures s[i..][n..] == s[i + n..]
  {
  }

  /** `u` holds the blanked form of the token at position `i`. */
  ghost predicate HoldsToken(s: string, u: string, i: nat) {
    i < |s| == |u| && var t := Piece(u[..i], s[i..]); u[i..i + |t|] == t
  }

  lemma BlockTokenReads(s: string, u: string, i: nat)
    requires HoldsToken(s, u, i) && OpensBlockComment(s[i..])
    ensures TokenAt(s, u, i, i + |Piece(u[..i], s[i..])|)
  {
    TailOfTail(s, i, 2);
    SlicedTail(u, i, "  ", BlockComment(s[i + 2..]));
    BlockCommentReads(s, u, i + 2);
  }

  lemma QuotedTokenReads(s: string, u: string, i: nat)
    requires HoldsToken(s, u, i) && OpensQuoted(u[..i], s[i..])
    ensures TokenAt(s, u, i, i + |Piece(u[..i], s[i..])|)
  {
    TailOfTail(s, i, 1);
    SlicedTail(u, i, " ", Quoted(s[i + 1..], s[i]));
    QuotedReads(s, u, i + 1, s[i]);
  }

  lemma TemplateTokenReads(s: string, u: string, i: nat)
    requires HoldsToken(s, u, i) && OpensTemplate(s[i..])
    ensures TokenAt(s, u, i, i + |Piece(u[..i], s[i..])|)
  {
    TailOfTail(s, i, 1);
    SlicedTail(u, i, " ", Template(s[i + 1..]));
    TemplateReads(s, u, i + 1);
  }

  lemma TokenReads(s: string, u: string, i: nat)
    requires HoldsToken(s, u, i)
    ensures TokenAt(s, u, i, i + |Piece(u[..i], s[i..])|)
  {
    var r := s[i..];
    if OpensLineComment(r) {
      LineCommentReads(s, u, i);
    } else if OpensBlockComment(r) {
      BlockTokenReads(s, u, i);
    } else if OpensQuoted(u[..i], r) {
      QuotedTokenReads(s, u, i);
    } else if OpensTemplate(r) {
      TemplateTokenReads(s, u, i);
    } else {
      assert u[i..i + 1][0] == u[i];
    }
  }

  /** The token at position `i`, and where the scan of the whole text goes on. */
  lemma TokenNext(s: string, u: string, i: nat) returns (e: nat)
    requires i < |s| == |u| && BlankFrom(u[..i], s[i..]) == u
    ensures i < e <= |s| && TokenAt(s, u, i, e) && BlankFrom(u[..e], s[e..]) == u
  {
    var r := s[i..];
    var t := Piece(u[..i], r);
    e := i + |t|;
    BlankFromPrefix(u[..i] + t, r[|t|..]);
    assert r[|t|..] == s[e..] && u[..e] == u[..i] + t;
    assert u[i..e] == t;
    TokenReads(s, u, i);
  }

  /** Overwrites the literal, comment or single byte at position `i`. */
  method BlankToken(b: array<char>, i: nat, ghost e: nat, ghost u: string, ghost s: string) returns (j: nat)
    requires i < |s| && Progress(b, i, u, s) && TokenAt(s, u, i, e)
    modifies b
    ensures j == e && Progress(b, e, u, s)
  {
    var quoted := false;
    if b[i] == '"' || b[i] == '\'' {
      assert b[..i] == u[..i] == u[..i][..i];
      quoted := IsStringStartPos(b[..i], i);
    }
    if i + 1 < b.Length && b[i] == '/' && b[i + 1] == '/' {
      j := BlankLineComment(b, i, e, u, s);
    } else if i + 1 < b.Length && b[i] == '/' && b[i + 1] == '*' {
      b[i], b[i + 1] := ' ', ' ';
      j := BlankBlockComment(b, i + 2, e, u, s);
    } else if quoted {
      var q := b[i];
      b[i] := ' ';
      j := BlankQuoted(b, i + 1, q, e, u, s);
    } else if b[i] == '`' {
      b[i] := ' ';
      j := BlankTemplate(b, i + 1, e, u, s);
    } else {
      j := i + 1;
    }
  }

  /** Blanks the whole buffer in place. */
  method StripStringsAndComments(b: array<char>)
    modifies b
    ensures b[..] == Blanked(old(b[..]))
  {
    var i := 0;
    ghost var s := b[..];
    ghost var u := Blanked(s);
    BlankFromPrefix([], s);
    assert s[0..] == s && u[..0] == [];
    while i < b.Length
      invariant i <= |s| && Progress(b, i, u, s) && BlankFrom(u[..i], s[i..]) == u
    {
      ghost var e := TokenNext(s, u, i);
      i := BlankToken(b, i, e, u, s);
    }
  }
}
