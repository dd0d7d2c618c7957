/** Rendered element trees under the tag pass of the compile gate (internal/compile/compile.go,
    jsxSanity): which documents it accepts. */
module GateDocuments {
  import opened Prelude
  import opened GateTags
  import opened GateLookBack
  import opened GateTagLaws
  import opened Nesting

  /** A document: texts, elements with a closing tag and elements that close themselves. */
  datatype Jsx =
    | Nothing
    | Text(text: string, rest: Jsx)
    | Element(name: string, attrs: Attrs, inside: Jsx, rest: Jsx)
    | Alone(name: string, attrs: Attrs, rest: Jsx)

  function Begin(n: string, a: Attrs): string { "<" + n + Show(a) + ">" }

  function End(n: string): string { "</" + n + ">" }

  function Render(j: Jsx): string {
    match j
    case Nothing => ""
    case Text(x, rest) => x + Render(rest)
    case Element(n, a, inside, rest) => Begin(n, a) + Render(inside) + End(n) + Render(rest)
    case Alone(n, a, rest) => Begin(n, a) + Render(rest)
  }

  predicate Slashed(a: Attrs) { Show(a) != "" && Show(a)[|Show(a)| - 1] == '/' }

  predicate IsTag(n: string, a: Attrs) { IsName(n) && StopsName(Show(a)) && Free(a, true) && '<' !in Show(a) }

  predicate WellFormed(j: Jsx) {
    match j
    case Nothing => true
    case Text(x, rest) => '<' !in x && WellFormed(rest)
    case Element(n, a, inside, rest) => IsTag(n, a) && !Slashed(a) && WellFormed(inside) && WellFormed(rest)
    case Alone(n, a, rest) => IsTag(n, a) && Slashed(a) && WellFormed(rest)
  }

  /** Is the opening tag `<n` after the text `p` taken for one? */
  predicate Seen(p: string, n: string) { TagPosition(p) && n !in TYPE_NAMES }

  /** Every element of `j` with a closing tag, read after the text `p`, has its opening tag seen. */
  predicate AllSeen(p: string, j: Jsx)
    decreases j
  {
    match j
    case Nothing => true
    case Text(x, rest) => AllSeen(p + x, rest)
    case Element(n, a, inside, rest) =>
      Seen(p, n) && AllSeen(p + Begin(n, a), inside) && AllSeen(p + Begin(n, a) + Render(inside) + End(n), rest)
    case Alone(n, a, rest) => AllSeen(p + Begin(n, a), rest)
  }

  /** The tags the pass reads in `j` after the text `p`. */
  function Tags(p: string, j: Jsx): seq<Token<string>>
    decreases j
  {
    match j
    case Nothing => []
    case Text(x, rest) => Tags(p + x, rest)
    case Element(n, a, inside, rest) =>
      (if Seen(p, n) then [Open(n)] else []) + Tags(p + Begin(n, a), inside) + [Close(n)] +
      Tags(p + Begin(n, a) + Render(inside) + End(n), rest)
    case Alone(n, a, rest) => Tags(p + Begin(n, a), rest)
  }

  /* ---- The tokens of a stretch of a text ---- */

  function TokensIn(t: string, a: nat, b: nat): seq<Token<string>>
    requires a <= b <= |t|
  {
    Tokens(TagMarks(t)[a..b])
  }

  lemma TokensSplit(t: string, a: nat, b: nat, c: nat)
    requires a <= b <= c <= |t|
    ensures TokensIn(t, a, c) == TokensIn(t, a, b) + TokensIn(t, b, c)
  {
    var m := TagMarks(t);
    TokensAppend(m[a..b], m[b..c]);
    assert m[a..c] == m[a..b] + m[b..c];
  }

  lemma {:induction false} NoTagNoTokens(t: string, a: nat, b: nat)
    requires a <= b <= |t| && forall i :: a <= i < b ==> t[i] != '<'
    ensures TokensIn(t, a, b) == []
    decreases b - a
  {
    var m := TagMarks(t)[a..b];
    if a < b {
      NoTagNoTokens(t, a, b - 1);
      assert m[..|m| - 1] == TagMarks(t)[a..b - 1];
      assert m[|m| - 1] == TagMark(t, b - 1);
    }
  }

  lemma OneToken(mark: Option<Token<string>>)
    ensures Tokens([mark]) == match mark case None => [] case Some(m) => [m]
  {
    assert [mark][..0] == [];
    assert Tokens([mark][..0]) == [];
  }

  lemma MarkAlone(t: string, a: nat, b: nat)
    requires a < b <= |t| && forall i :: a < i < b ==> t[i] != '<'
    ensures TokensIn(t, a, b) == match TagMark(t, a) case None => [] case Some(m) => [m]
  {
    TokensSplit(t, a, a + 1, b);
    NoTagNoTokens(t, a + 1, b);
    OneToken(TagMark(t, a));
    assert TagMarks(t)[a..a + 1] == [TagMark(t, a)];
  }

  lemma TextTokens(p: string, x: string, r: string)
    requires '<' !in x
    ensures TokensIn(p + x + r, |p|, |p| + |x|) == []
  {
    forall i | |p| <= i < |p| + |x| ensures (p + x + r)[i] != '<' {
      assert (p + x + r)[i] == x[i - |p|];
    }
    NoTagNoTokens(p + x + r, |p|, |p| + |x|);
  }

  lemma OneBracket(n: string, a: Attrs)
    requires IsTag(n, a)
    ensures forall i :: 0 < i < |Begin(n, a)| ==> Begin(n, a)[i] != '<'
  {
    hide Free, StopsName;
    assert forall i :: 0 <= i < |n| ==> NameByte(n[i]) && n[i] != '<';
  }

  lemma BeginTokens(p: string, n: string, a: Attrs, r: string)
    requires IsTag(n, a)
    ensures TokensIn(p + Begin(n, a) + r, |p|, |p| + |Begin(n, a)|) ==
            if Seen(p, n) && !Slashed(a) then [Open(n)] else []
  {
    hide TagPosition, TagMark, TYPE_NAMES, TokensIn, IsName, StopsName, Free;
    var b := Begin(n, a);
    var t := p + b + r;
    OneBracket(n, a);
    OpeningTag(p, n, a, r);
    assert t == p + "<" + n + Show(a) + ">" + r;
    forall i | |p| < i < |p| + |b| ensures t[i] != '<' {
      assert t[i] == b[i - |p|];
    }
    MarkAlone(t, |p|, |p| + |b|);
  }

  lemma EndTokens(p: string, n: string, r: string)
    requires IsName(n)
    ensures TokensIn(p + End(n) + r, |p|, |p| + |End(n)|) == [Close(n)]
  {
    hide TagMark;
    var t := p + End(n) + r;
    assert t == p + "</" + n + (">" + r);
    ClosingTag(p, n, ">" + r);
    forall i | |p| < i < |p| + |End(n)| ensures t[i] != '<' {
      assert t[i] == End(n)[i - |p|];
    }
    MarkAlone(t, |p|, |p| + |End(n)|);
  }

  /** The tokens of a rendered document in any surroundings. */
  lemma {:induction false} DocumentTokens(p: string, j: Jsx, r: string)
    requires WellFormed(j)
    ensures TokensIn(p + Render(j) + r, |p|, |p| + |Render(j)|) == Tags(p, j)
    decreases j, 1
  {
    hide Seen, TokensIn, Begin, End;
    var t, k := p + Render(j) + r, |p|;
    match j
    case Nothing =>
      TextTokens(p, "", r);
    case Text(x, rest) =>
      assert t == p + x + (Render(rest) + r) == (p + x) + Render(rest) + r;
      TextTokens(p, x, Render(rest) + r);
      DocumentTokens(p + x, rest, r);
      TokensSplit(t, k, k + |x|, k + |Render(j)|);
    case Element(n, a, inside, rest) =>
      ElementTokens(p, n, a, inside, rest, r);
    case Alone(n, a, rest) =>
      var b := Begin(n, a);
      assert t == p + b + (Render(rest) + r) == (p + b) + Render(rest) + r;
      BeginTokens(p, n, a, Render(rest) + r);
      DocumentTokens(p + b, rest, r);
      TokensSplit(t, k, k + |b|, k + |Render(j)|);
  }

  lemma {:induction false} ElementTokens(p: string, n: string, a: Attrs, inside: Jsx, rest: Jsx, r: string)
    requires WellFormed(Element(n, a, inside, rest))
    ensures var j := Element(n, a, inside, rest);
            TokensIn(p + Render(j) + r, |p|, |p| + |Render(j)|) == Tags(p, j)
    decreases Element(n, a, inside, rest), 0
  {
    hide *;
    var j, b, i, e, s := Element(n, a, inside, rest), Begin(n, a), Render(inside), End(n), Render(rest);
    var t, k := p + (b + i + e + s) + r, |p|;
    ElementParts(p, n, a, inside, rest);
    Regroup(p, b, i, e, s, r);
    FourParts(t, k, |b|, |i|, |e|, |s|);
    BeginTokens(p, n, a, i + e + s + r);
    DocumentTokens(p + b, inside, e + s + r);
    EndTokens(p + b + i, n, s + r);
    DocumentTokens(p + b + i + e, rest, r);
  }

  lemma {:induction false} ElementParts(p: string, n: string, a: Attrs, inside: Jsx, rest: Jsx)
    requires WellFormed(Element(n, a, inside, rest))
    ensures var j, b, i, e := Element(n, a, inside, rest), Begin(n, a), Render(inside), End(n);
            IsTag(n, a) && IsName(n) && !Slashed(a) && WellFormed(inside) && WellFormed(rest) &&
            Render(j) == b + i + e + Render(rest) &&
            Tags(p, j) == (if Seen(p, n) then [Open(n)] else []) + Tags(p + b, inside) + [Close(n)] + Tags(p + b + i + e, rest)
  {
    hide Seen, Begin, End, IsName, StopsName, Free;
  }

  lemma Regroup(p: string, b: string, i: string, e: string, s: string, r: string)
    ensures var t := p + (b + i + e + s) + r;
            t == p + b + (i + e + s + r) && t == (p + b) + i + (e + s + r) &&
            t == (p + b + i) + e + (s + r) && t == (p + b + i + e) + s + r
  {
  }

  lemma FourParts(t: string, k: nat, b: nat, i: nat, e: nat, s: nat)
    requires k + b + i + e + s <= |t|
    ensures TokensIn(t, k, k + b + i + e + s) ==
            TokensIn(t, k, k + b) + TokensIn(t, k + b, k + b + i) + TokensIn(t, k + b + i, k + b + i + e) +
            TokensIn(t, k + b + i + e, k + b + i + e + s)
  {
    hide TokensIn;
    TokensSplit(t, k, k + b, k + b + i);
    TokensSplit(t, k, k + b + i, k + b + i + e);
    TokensSplit(t, k, k + b + i + e, k + b + i + e + s);
  }

  /* ---- Which documents are accepted ---- */

  /** How many more tags of `w` open than close. */
  function Balance(w: seq<Token<string>>): int {
    if w == [] then 0 else (if w[0].Open? then 1 else -1) + Balance(w[1..])
  }

  lemma {:induction false} BalanceAppend(u: seq<Token<string>>, v: seq<Token<string>>)
    ensures Balance(u + v) == Balance(u) + Balance(v)
    decreases |u|
  {
    if u == [] {
      assert u + v == v;
    } else {
      assert (u + v)[1..] == u[1..] + v;
      BalanceAppend(u[1..], v);
    }
  }

  lemma {:induction false} NestedIsBalanced(f: Forest<string>)
    ensures Balance(Word(f)) == 0
    decreases f
  {
    match f
    case Empty =>
    case Node(k, inside, after) =>
      var a, b, c, d := [Open(k)], Word(inside), [Close(k)], Word(after);
      NestedIsBalanced(inside);
      NestedIsBalanced(after);
      BalanceAppend(a + b + c, d);
      BalanceAppend(a + b, c);
      BalanceAppend(a, b);
      assert a[1..] == [] && c[1..] == [];
  }

  /** The elements of a document as a list of matched pairs. */
  function Pairs(j: Jsx): Forest<string> {
    match j
    case Nothing => Empty
    case Text(_, rest) => Pairs(rest)
    case Element(n, _, inside, rest) => Node(n, Pairs(inside), Pairs(rest))
    case Alone(_, _, rest) => Pairs(rest)
  }

  lemma {:induction false} SeenIsPairs(p: string, j: Jsx)
    requires AllSeen(p, j)
    ensures Tags(p, j) == Word(Pairs(j))
    decreases j
  {
    hide Seen, Begin, End;
    match j
    case Nothing =>
    case Text(x, rest) => SeenIsPairs(p + x, rest);
    case Element(n, a, inside, rest) =>
      SeenIsPairs(p + Begin(n, a), inside);
      SeenIsPairs(p + Begin(n, a) + Render(inside) + End(n), rest);
    case Alone(n, a, rest) => SeenIsPairs(p + Begin(n, a), rest);
  }

  /** Every opening tag that is not seen leaves a closing tag too many. */
  lemma {:induction false} UnseenClosesMore(p: string, j: Jsx)
    ensures Balance(Tags(p, j)) <= 0
    ensures Balance(Tags(p, j)) == 0 <==> AllSeen(p, j)
    decreases j
  {
    hide Seen, Begin, End;
    match j
    case Nothing =>
    case Text(x, rest) => UnseenClosesMore(p + x, rest);
    case Element(n, a, inside, rest) =>
      var o, i, c := if Seen(p, n) then [Open(n)] else [], Tags(p + Begin(n, a), inside), [Close(n)];
      var s := Tags(p + Begin(n, a) + Render(inside) + End(n), rest);
      UnseenClosesMore(p + Begin(n, a), inside);
      UnseenClosesMore(p + Begin(n, a) + Render(inside) + End(n), rest);
      BalanceAppend(o + i + c, s);
      BalanceAppend(o + i, c);
      BalanceAppend(o, i);
      assert c[1..] == [] && (o != [] ==> o[1..] == []);
    case Alone(n, a, rest) => UnseenClosesMore(p + Begin(n, a), rest);
  }

  lemma WholeText(t: string)
    ensures Tokens(TagMarks(t)) == TokensIn(t, 0, |t|)
  {
    assert TagMarks(t) == TagMarks(t)[0..|t|];
  }

  /** The tokens of a text with a stretch `x` between two without tags. */
  lemma OnlyTokens(p: string, x: string, r: string)
    requires '<' !in p && '<' !in r
    ensures Tokens(TagMarks(p + x + r)) == TokensIn(p + x + r, |p|, |p| + |x|)
  {
    hide TokensIn, TagMark;
    var t := p + x + r;
    WholeText(t);
    TokensSplit(t, 0, |p|, |t|);
    TokensSplit(t, |p|, |p| + |x|, |t|);
    assert TokensIn(t, 0, |p|) == [] by {
      assert t == "" + p + (x + r);
      TextTokens("", p, x + r);
    }
    assert TokensIn(t, |p| + |x|, |t|) == [] by {
      assert t == p + x + r + "";
      TextTokens(p + x, r, "");
    }
  }

  lemma NestedTextIsBalanced(t: string)
    requires TagsNested(t)
    ensures Balance(Tokens(TagMarks(t))) == 0
  {
    var f: Forest<string> :| Word(f) == Tokens(TagMarks(t));
    NestedIsBalanced(f);
  }

  /** A rendered document passes the tag check exactly when the opening tag of each of its
      elements stands where the check looks for one, and names no type. */
  lemma {:induction false} DocumentNestedExactly(p: string, j: Jsx, r: string)
    requires WellFormed(j) && '<' !in p && '<' !in r
    ensures TagsNested(p + Render(j) + r) <==> AllSeen(p, j)
  {
    OnlyTokens(p, Render(j), r);
    DocumentTokens(p, j, r);
    if AllSeen(p, j) {
      SeenIsPairs(p, j);
    }
    if TagsNested(p + Render(j) + r) {
      NestedTextIsBalanced(p + Render(j) + r);
      UnseenClosesMore(p, j);
    }
  }

  /** A document that lacks the closing tag of its outermost element fails. */
  lemma {:induction false} MissingCloseFails(p: string, n: string, a: Attrs, j: Jsx, r: string)
    requires IsTag(n, a) && !Slashed(a) && WellFormed(j) && '<' !in p && '<' !in r
    requires Seen(p, n) && AllSeen(p + Begin(n, a), j)
    ensures !TagsNested(p + Begin(n, a) + Render(j) + r)
  {
    hide Seen, TokensIn, Begin, TagMarks;
    var b, x := Begin(n, a), Render(j);
    var t := p + b + x + r;
    assert t == p + (b + x) + r == p + b + (x + r);
    OnlyTokens(p, b + x, r);
    TokensSplit(t, |p|, |p| + |b|, |p| + |b| + |x|);
    BeginTokens(p, n, a, x + r);
    DocumentTokens(p + b, j, r);
    UnseenClosesMore(p + b, j);
    BalanceAppend([Open(n)], Tags(p + b, j));
    assert [Open(n)][1..] == [];
    if TagsNested(t) {
      NestedTextIsBalanced(t);
    }
  }

  /** A document with a closing tag too many fails. */
  lemma {:induction false} ExtraCloseFails(p: string, j: Jsx, n: string, r: string)
    requires WellFormed(j) && IsName(n) && '<' !in p && '<' !in r
    ensures !TagsNested(p + Render(j) + End(n) + r)
  {
    hide Seen, TokensIn, End, TagMarks;
    var x, e := Render(j), End(n);
    var t := p + x + e + r;
    assert t == p + (x + e) + r == p + x + (e + r) == (p + x) + e + r;
    OnlyTokens(p, x + e, r);
    TokensSplit(t, |p|, |p| + |x|, |p| + |x| + |e|);
    DocumentTokens(p, j, e + r);
    EndTokens(p + x, n, r);
    UnseenClosesMore(p, j);
    BalanceAppend(Tags(p, j), [Close(n)]);
    assert [Close(n)][1..] == [];
    if TagsNested(t) {
      NestedTextIsBalanced(t);
    }
  }

  lemma PlainText(p: string, x: string)
    ensures AllSeen(p, Text(x, Nothing))
    ensures '<' !in x ==> WellFormed(Text(x, Nothing))
  {
    assert AllSeen(p + x, Nothing) && WellFormed(Nothing);
  }

  /** An element in parentheses passes with its closing tag and fails without it. */
  lemma ParenthesizedElement(n: string, x: string)
    requires IsName(n) && n !in TYPE_NAMES && '<' !in x
    ensures TagsNested("(<" + n + ">" + x + "</" + n + ">)") && !TagsNested("(<" + n + ">" + x + ")")
  {
    hide TYPE_NAMES, TagsNested, TagPosition;
    var inside := Text(x, Nothing);
    var j := Element(n, Stop, inside, Nothing);
    TagAfterOperator("", '(', "");
    assert "" + "(" + "" == "(";
    PlainText("(" + Begin(n, Stop), x);
    assert AllSeen("(" + Begin(n, Stop) + Render(inside) + End(n), Nothing);
    RenderedElement(n, inside);
    assert "(" + Render(j) + ")" == "(<" + n + ">" + x + "</" + n + ">)";
    DocumentNestedExactly("(", j, ")");
    assert "(" + Begin(n, Stop) + Render(inside) + ")" == "(<" + n + ">" + x + ")";
    MissingCloseFails("(", n, Stop, inside, ")");
  }

  /** An element with a closing tag, right after a word of text that is no keyword, fails
      although it is well formed. */
  lemma {:induction false} WordBeforeTagFails(p: string, u: string, word: string, w: string, n: string, a: Attrs,
          inside: Jsx, rest: Jsx, r: string)
    requires WordAfter(p + u, word) && word !in KEYWORDS && White(w) && '<' !in p && '<' !in r
    requires WellFormed(Text(u + word + w, Element(n, a, inside, rest)))
    ensures !TagsNested(p + Render(Text(u + word + w, Element(n, a, inside, rest))) + r)
  {
    hide TagsNested, TagPosition, Render, KEYWORDS;
    assert !TagPosition(p + (u + word + w)) by {
      TagAfterWord(p + u, word, w);
      assert p + u + word + w == p + (u + word + w);
    }
    DocumentNestedExactly(p, Text(u + word + w, Element(n, a, inside, rest)), r);
  }

  /** So text that ends in an ordinary word must not precede a child element. */
  lemma ChildAfterWordFails(n: string, word: string, m: string, x: string)
    requires IsName(n) && IsName(m) && WordAfter("", word) && word !in KEYWORDS && '<' !in x
    ensures !TagsNested("<" + n + ">" + word + " <" + m + ">" + x + "</" + m + "></" + n + ">")
  {
    hide TagsNested, TagPosition, KEYWORDS;
    var b := Begin(n, Stop);
    var child := Element(m, Stop, Text(x, Nothing), Nothing);
    var j := Element(n, Stop, Text(word + " ", child), Nothing);
    assert !AllSeen("", j) by {
      assert WordAfter("" + b, word) by { assert b[|b| - 1] == '>'; }
      TagAfterWord("" + b, word, " ");
      assert "" + b + word + " " == "" + b + (word + " ");
      assert !Seen("" + b + (word + " "), m);
      assert !AllSeen("" + b + (word + " "), child);
      assert !AllSeen("" + b, Text(word + " ", child));
    }
    assert '<' !in word + " " by { assert forall i :: 0 <= i < |word| ==> NameByte(word[i]) && word[i] != '<'; }
    PlainText("", x);
    assert WellFormed(child);
    RenderedChild(n, word, m, x);
    DocumentNestedExactly("", j, "");
  }

  lemma {:induction false} RenderedElement(n: string, inside: Jsx)
    ensures Render(Element(n, Stop, inside, Nothing)) == "<" + n + ">" + Render(inside) + "</" + n + ">"
  {
  }

  lemma RenderedChild(n: string, word: string, m: string, x: string)
    ensures "" + Render(Element(n, Stop, Text(word + " ", Element(m, Stop, Text(x, Nothing), Nothing)), Nothing)) + "" ==
            "<" + n + ">" + word + " <" + m + ">" + x + "</" + m + "></" + n + ">"
  {
    var text := Text(x, Nothing);
    var child := Element(m, Stop, text, Nothing);
    RenderedElement(m, text);
    RenderedElement(n, Text(word + " ", child));
    assert Render(text) == x;
    assert Render(Text(word + " ", child)) == word + " " + Render(child);
  }
}
