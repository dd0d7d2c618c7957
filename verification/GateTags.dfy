/** The tag pass of the compile gate (internal/compile/compile.go, jsxSanity). */
module GateTags {
  import opened Prelude
  import opened GateText
  import opened GateScanner
  import opened Nesting
  import opened GateFaults

  /** Names that are types, so `<name>` is a type assertion. */
  predicate IsTypeName(w: string) {
    w in ["string", "number", "boolean", "any", "unknown", "void", "null", "undefined", "never",
          "object", "symbol", "bigint", "const", "typeof", "keyof", "infer", "readonly", "unique"]
  }

  /** Operators and punctuators after which `<` begins a tag. */
  predicate IsTagPunctuator(c: char) {
    c == '=' || c == '>' || c == '+' || c == '-' || c == '*' || c == '/' || c == '%' || c == '&' ||
    c == '|' || c == '^' || c == '~' || c == '!' || c == '?' || c == ':' || c == '(' || c == '[' ||
    c == '{' || c == '}' || c == ',' || c == ';' || c == '<' || c == '.'
  }

  /** Ends of values, after which `<` compares or opens a generic. */
  predicate EndsValue(c: char) { c == ')' || c == ']' || c == '"' || c == '\'' || c == '`' || IsDigit(c) }

  /** Does a `<` that follows the text `p` begin a tag? */
  predicate TagPosition(p: string) {
    var q := Significant(p);
    q == [] ||
    var c := q[|q| - 1];
    IsTagPunctuator(c) ||
    (!EndsValue(c) && (IsNameStart(c) ==> IsOperandKeyword(LastWord(q))))
  }

  /** The end of the longest run of name characters from position `j` on. */
  function NameEnd(t: string, j: nat): (e: nat)
    requires j <= |t|
    ensures j <= e <= |t|
    ensures forall k :: j <= k < e ==> IsNameChar(t[k])
    ensures e < |t| ==> !IsNameChar(t[e])
    decreases |t| - j
  {
    if j < |t| && IsNameChar(t[j]) then NameEnd(t, j + 1) else j
  }

  /** How many braces opened from `j` on are open at `k`; a stray `}` is ignored. */
  function BraceDepth(t: string, j: nat, k: nat): nat
    requires j <= k <= |t|
    decreases k
  {
    if k == j then 0
    else
      var d := BraceDepth(t, j, k - 1);
      if t[k - 1] == '{' then d + 1 else if t[k - 1] == '}' && d > 0 then d - 1 else d
  }

  /** Position `k` is the `>` that ends the tag whose attributes start at `j`. */
  predicate EndsTag(t: string, j: nat, k: nat)
    requires j <= k < |t|
  {
    t[k] == '>' && BraceDepth(t, j, k) == 0
  }

  /** The first `>` outside braces from `j` on, or the length of the text. */
  function TagEnd(t: string, j: nat, k: nat): (e: nat)
    requires j <= k <= |t|
    requires forall m :: j <= m < k ==> !EndsTag(t, j, m)
    ensures k <= e <= |t|
    ensures forall m :: j <= m < e ==> !EndsTag(t, j, m)
    ensures e < |t| ==> EndsTag(t, j, e)
    decreases |t| - k
  {
    if k == |t| || EndsTag(t, j, k) then k else TagEnd(t, j, k + 1)
  }

  /** Does the tag whose attributes start at `j` close itself? */
  predicate SelfCloses(t: string, j: nat)
    requires j <= |t|
  {
    var e := TagEnd(t, j, j);
    0 < e < |t| && t[e - 1] == '/'
  }

  /** The tag token at position `i` of the text: none, an opening or a closing tag. */
  function TagMark(t: string, i: nat): Option<Token<string>>
    requires i < |t|
  {
    if t[i] != '<' || i + 1 == |t| then None
    else if t[i + 1] == '/' then
      var e := NameEnd(t, i + 2);
      if e == i + 2 then None else Some(Close(t[i + 2..e]))
    else if !IsNameStart(t[i + 1]) || !TagPosition(t[..i]) then None
    else
      var e := NameEnd(t, i + 1);
      if IsTypeName(t[i + 1..e]) || SelfCloses(t, e) then None else Some(Open(t[i + 1..e]))
  }

  function TagMarks(t: string): (m: Marks<string>)
    ensures |m| == |t|
  {
    seq(|t|, i requires 0 <= i < |t| => TagMark(t, i))
  }

  ghost predicate TagsNested(t: string) { Nested(Tokens(TagMarks(t))) }

  /** Does the `<` at position `i` begin a tag? */
  method JsxPosition(t: string, i: nat) returns (r: bool)
    requires i <= |t|
    ensures r == TagPosition(t[..i])
  {
    var k := SkipSpaceBack(t, i);
    if k == 0 {
      return true;
    }
    var c := t[k - 1];
    if IsTagPunctuator(c) {
      return true;
    }
    if EndsValue(c) {
      return false;
    }
    if IsNameStart(c) {
      var start := SkipWordBack(t, k);
      return IsOperandKeyword(t[start..k]);
    }
    r := true;
  }

  method ScanName(t: string, i: nat) returns (j: nat)
    requires i <= |t|
    ensures j == NameEnd(t, i)
  {
    j := i;
    while j < |t| && IsNameChar(t[j])
      invariant i <= j <= |t| && NameEnd(t, i) == NameEnd(t, j)
    {
      j := j + 1;
    }
  }

  /** Looks for the end of the tag whose attributes start at `j`. */
  method ScanSelfClose(t: string, j: nat) returns (selfClose: bool)
    requires j <= |t|
    ensures selfClose == SelfCloses(t, j)
  {
    var k := j;
    var depth := 0;
    while k < |t|
      invariant j <= k <= |t| && depth == BraceDepth(t, j, k)
      invariant forall m :: j <= m < k ==> !EndsTag(t, j, m)
    {
      if t[k] == '{' {
        depth := depth + 1;
      } else if t[k] == '}' {
        if depth > 0 {
          depth := depth - 1;
        }
      } else if t[k] == '>' {
        if depth == 0 {
          break;
        }
      }
      k := k + 1;
    }
    assert k < |t| ==> EndsTag(t, j, k);
    assert TagEnd(t, j, j) == k;
    selfClose := k < |t| && t[k] == '>' && k > 0 && t[k - 1] == '/';
  }

  /** The tag token at position `i`. */
  method ScanTag(t: string, i: nat) returns (mark: Option<Token<string>>)
    requires i < |t|
    ensures mark == TagMark(t, i)
  {
    if t[i] != '<' {
      return None;
    }
    if i + 1 < |t| && t[i + 1] == '/' {
      var j := ScanName(t, i + 2);
      return if j == i + 2 then None else Some(Close(t[i + 2..j]));
    }
    if i + 1 >= |t| || !IsNameStart(t[i + 1]) {
      return None;
    }
    var inPosition := JsxPosition(t, i);
    if !inPosition {
      return None;
    }
    var j := ScanName(t, i + 1);
    if IsTypeName(t[i + 1..j]) {
      return None;
    }
    var selfClose := ScanSelfClose(t, j);
    mark := if selfClose then None else Some(Open(t[i + 1..j]));
  }

  /** Reports the first fault of the tag structure of `t`, if it has one. */
  method CheckTags(t: string) returns (err: Option<Error<string>>)
    ensures err.None? <==> TagsNested(t)
    ensures err.Some? ==> Reports(t, TagMarks(t), err.value)
  {
    ghost var marks := TagMarks(t);
    var stack: seq<Frame<string>> := [];
    var line := 1;
    HoldsNothing(t, marks);
    for i := 0 to |t|
      invariant line == LineOf(t, i) && HoldsOpen(t, marks, i, stack)
    {
      var mark := ScanTag(t, i);
      err, stack := Advance(t, marks, i, mark, stack, line);
      if err.Some? {
        return;
      }
      LineOfNext(t, i);
      if t[i] == '\n' {
        line := line + 1;
      }
    }
    err := Finish(t, marks, stack);
  }
}
