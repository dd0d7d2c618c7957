/** Which text makes a `<` a tag, read off the text itself (internal/compile/compile.go,
    jsxPosition, isTypeName and the scan for a tag's end in jsxSanity). */
module GateTagLaws {
  import opened Prelude
  import opened GateText
  import opened GateTags
  import opened GateLookBack
  import opened Nesting

  /** Names of types: `<string>` is a type assertion and no tag. */
  const TYPE_NAMES := ["string", "number", "boolean", "any", "unknown", "void", "null", "undefined", "never",
                       "object", "symbol", "bigint", "const", "typeof", "keyof", "infer", "readonly", "unique"]

  predicate IsName(n: string) { n != "" && Letter(n[0]) && forall i | 0 <= i < |n| :: NameByte(n[i]) }

  /** The name of a tag stops before `r`. */
  predicate StopsName(r: string) { r == "" || !NameByte(r[0]) }

  /* ---- The end of a tag ---- */

  /** The text from a tag's name on, with its matched braces. */
  datatype Attrs = Stop | Byte(c: char, more: Attrs) | Braced(inside: Attrs, more: Attrs)

  function Show(a: Attrs): string {
    match a
    case Stop => ""
    case Byte(c, more) => [c] + Show(more)
    case Braced(inside, more) => "{" + Show(inside) + "}" + Show(more)
  }

  /** No closing angle bracket stands outside braces, and braces match inside them. */
  predicate Free(a: Attrs, outside: bool) {
    match a
    case Stop => true
    case Byte(c, more) => c != '{' && (if outside then c != '>' else c != '}') && Free(more, outside)
    case Braced(inside, more) => Free(inside, false) && Free(more, outside)
  }

  /** `x` stands in `t` from position `k` on. */
  predicate StandsAt(t: string, k: nat, x: string) { k + |x| <= |t| && t[k..k + |x|] == x }

  lemma StandsApart(t: string, k: nat, x: string, y: string)
    requires StandsAt(t, k, x + y)
    ensures StandsAt(t, k, x) && StandsAt(t, k + |x|, y)
  {
    assert t[k..k + |x|] == (x + y)[..|x|];
    assert t[k + |x|..k + |x| + |y|] == (x + y)[|x|..];
  }

  lemma BracesApart(t: string, k: nat, x: string, y: string)
    requires StandsAt(t, k, "{" + x + "}" + y)
    ensures t[k] == '{' && StandsAt(t, k + 1, x) && t[k + 1 + |x|] == '}' && StandsAt(t, k + 2 + |x|, y)
  {
    assert "{" + x + "}" + y == "{" + (x + ("}" + y));
    StandsApart(t, k, "{", x + ("}" + y));
    StandsApart(t, k + 1, x, "}" + y);
    StandsApart(t, k + 1 + |x|, "}", y);
    assert t[k..k + 1][0] == '{' && t[k + 1 + |x|..k + 2 + |x|][0] == '}';
  }

  lemma DepthAfter(t: string, j: nat, k: nat)
    requires j <= k < |t|
    ensures var d := BraceDepth(t, j, k);
            BraceDepth(t, j, k + 1) == (if t[k] == '{' then d + 1 else if t[k] == '}' && d > 0 then d - 1 else d) &&
            (EndsTag(t, j, k) <==> t[k] == '>' && d == 0)
  {
  }

  /** Reading attributes leaves the depth of braces as it is and meets no end of the tag. */
  lemma {:induction false} DepthAlong(t: string, j: nat, k: nat, a: Attrs)
    requires j <= k && StandsAt(t, k, Show(a)) && Free(a, BraceDepth(t, j, k) == 0)
    ensures BraceDepth(t, j, k + |Show(a)|) == BraceDepth(t, j, k)
    ensures forall m :: k <= m < k + |Show(a)| ==> !EndsTag(t, j, m)
    decreases a, 1
  {
    hide BraceDepth, EndsTag;
    match a
    case Stop =>
    case Byte(c, more) =>
      StandsApart(t, k, [c], Show(more));
      assert t[k] == c by { assert t[k..k + 1][0] == c; }
      DepthAfter(t, j, k);
      DepthAlong(t, j, k + 1, more);
    case Braced(inside, more) =>
      BracesAlong(t, j, k, inside, more);
  }

  lemma {:induction false} BracesAlong(t: string, j: nat, k: nat, inside: Attrs, more: Attrs)
    requires j <= k && StandsAt(t, k, Show(Braced(inside, more)))
    requires Free(inside, false) && Free(more, BraceDepth(t, j, k) == 0)
    ensures BraceDepth(t, j, k + |Show(Braced(inside, more))|) == BraceDepth(t, j, k)
    ensures forall m :: k <= m < k + |Show(Braced(inside, more))| ==> !EndsTag(t, j, m)
    decreases Braced(inside, more), 0
  {
    hide BraceDepth, EndsTag, Free;
    var close := k + 1 + |Show(inside)|;
    assert Show(Braced(inside, more)) == "{" + Show(inside) + "}" + Show(more);
    BracesApart(t, k, Show(inside), Show(more));
    DepthAfter(t, j, k);
    DepthAlong(t, j, k + 1, inside);
    DepthAfter(t, j, close);
    DepthAlong(t, j, close + 1, more);
  }

  /** A tag ends at the first `>` outside braces, and closes itself exactly when a slash stands
      directly before that. */
  lemma {:induction false} SelfClosesExactly(p: string, a: Attrs, r: string)
    requires Free(a, true)
    ensures SelfCloses(p + Show(a) + ">" + r, |p|) <==> (p + Show(a) != "" && (p + Show(a))[|p + Show(a)| - 1] == '/')
  {
    var t, j, e := p + Show(a) + ">" + r, |p|, |p| + |Show(a)|;
    DepthAlong(t, j, j, a);
    assert t[e] == '>' && EndsTag(t, j, e);
    assert TagEnd(t, j, j) == e;
  }

  /** A tag that the text does not end is no self-closing one. */
  lemma {:induction false} UnfinishedTag(p: string, a: Attrs)
    requires Free(a, true)
    ensures !SelfCloses(p + Show(a), |p|)
  {
    var t, j := p + Show(a), |p|;
    DepthAlong(t, j, j, a);
    assert TagEnd(t, j, j) == |t|;
  }

  /* ---- The name of a tag ---- */

  lemma {:induction false} NameIsRead(p: string, n: string, r: string, k: nat)
    requires k <= |n| && StopsName(r) && forall i :: 0 <= i < |n| ==> NameByte(n[i])
    ensures NameEnd(p + n + r, |p| + k) == |p| + |n|
    decreases |n| - k
  {
    var t := p + n + r;
    if k < |n| {
      assert t[|p| + k] == n[k];
      NameIsRead(p, n, r, k + 1);
    }
  }

  lemma TypeNamesAgree(n: string)
    ensures IsTypeName(n) <==> n in TYPE_NAMES
  {
  }

  /** A closing tag is one wherever it stands. */
  lemma ClosingTag(p: string, n: string, r: string)
    requires n != "" && StopsName(r) && forall i :: 0 <= i < |n| ==> NameByte(n[i])
    ensures TagMark(p + "</" + n + r, |p|) == Some(Close(n))
  {
    var t := p + "</" + n + r;
    assert t == (p + "</") + n + r;
    NameIsRead(p + "</", n, r, 0);
    assert t[|p| + 2..|p| + 2 + |n|] == n;
  }

  /** What `<` and a name after `p` is, when the tag's end decides as `selfClose` says. */
  function TagAfter(p: string, n: string, selfClose: bool): Option<Token<string>> {
    if TagPosition(p) && n !in TYPE_NAMES && !selfClose then Some(Open(n)) else None
  }

  lemma NamedTag(p: string, n: string, r: string)
    requires IsName(n) && StopsName(r)
    ensures var t := p + "<" + n + r;
            |p| + 1 + |n| <= |t| && TagMark(t, |p|) == TagAfter(p, n, SelfCloses(t, |p| + 1 + |n|))
  {
    hide TagPosition, SelfCloses, IsTypeName, TYPE_NAMES;
    var t := p + "<" + n + r;
    assert t == (p + "<") + n + r;
    NameIsRead(p + "<", n, r, 0);
    TypeNamesAgree(n);
    assert t[|p| + 1] == n[0] && t[..|p|] == p && t[|p| + 1..|p| + 1 + |n|] == n;
  }

  /** An opening tag with its attributes: a token exactly when it stands where a tag may, its
      name is no type and no slash ends it. */
  lemma {:induction false} OpeningTag(p: string, n: string, a: Attrs, r: string)
    requires IsName(n) && StopsName(Show(a)) && Free(a, true)
    ensures TagMark(p + "<" + n + Show(a) + ">" + r, |p|) == TagAfter(p, n, Show(a) != "" && Show(a)[|Show(a)| - 1] == '/')
  {
    hide TagPosition, SelfCloses, TagMark;
    var u, v := p + "<" + n, Show(a) + ">" + r;
    assert u + v == u + Show(a) + ">" + r == p + "<" + n + Show(a) + ">" + r;
    NamedTag(p, n, v);
    SelfClosesExactly(u, a, r);
    assert (u + Show(a))[|u + Show(a)| - 1] == if Show(a) == "" then n[|n| - 1] else Show(a)[|Show(a)| - 1];
  }

  /* ---- Where a tag may stand ---- */

  /** At the start of a text. */
  lemma TagAtStart(w: string)
    requires White(w)
    ensures TagPosition(w)
  {
    WhiteIsNothing(w);
  }

  /** After an operator, a punctuator, a brace, a full stop and every other byte that neither
      ends a value nor is part of a word. */
  lemma TagAfterByte(p: string, c: char, w: string)
    requires White(w) && c !in " \t\n\r" && !Letter(c)
    ensures TagPosition(p + [c] + w) <==> c !in ")]\"'`" && !Digit(c)
  {
    WhiteIsPassed(p, c, w);
  }

  /** The operators and punctuators the source lists. */
  lemma TagAfterOperator(p: string, c: char, w: string)
    requires White(w) && c in "=>+-*/%&|^~!?:([{},;<."
    ensures TagPosition(p + [c] + w)
  {
    WhiteIsPassed(p, c, w);
  }

  /** After a word, exactly when it is a keyword that a value must follow. */
  lemma TagAfterWord(p: string, word: string, w: string)
    requires WordAfter(p, word) && White(w)
    ensures TagPosition(p + word + w) <==> word in KEYWORDS
  {
    hide IsOperandKeyword, KEYWORDS;
    WordIsFound(p, word, w);
    KeywordsAgree(word);
    assert (p + word)[|p + word| - 1] == word[|word| - 1];
  }
}
