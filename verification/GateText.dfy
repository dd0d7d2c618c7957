/** Byte classes and look-back over a text, shared by the three passes of the
    compile gate (internal/compile/compile.go).  A text is a `string` holding one
    byte per element; nothing here depends on the elements being below 256. */
module GateText {

  predicate IsSpace(c: char) { c == ' ' || c == '\t' || c == '\n' || c == '\r' }

  predicate IsDigit(c: char) { '0' <= c <= '9' }

  predicate IsNameStart(c: char) {
    'A' <= c <= 'Z' || 'a' <= c <= 'z' || c == '_'
  }

  predicate IsNameChar(c: char) { IsNameStart(c) || IsDigit(c) || c == '.' || c == '-' }

  /** Expression keywords: a value must follow them. */
  predicate IsOperandKeyword(w: string) {
    w in ["return", "throw", "yield", "await", "typeof", "void", "delete", "new",
          "instanceof", "in", "of", "do", "else", "case", "default"]
  }

  /** `p` without its trailing white space. */
  function Significant(p: string): (r: string)
    ensures r <= p
    ensures r != [] ==> !IsSpace(r[|r| - 1])
    ensures forall k :: |r| <= k < |p| ==> IsSpace(p[k])
  {
    if p != [] && IsSpace(p[|p| - 1]) then Significant(p[..|p| - 1]) else p
  }

  /** Where the longest suffix of name characters of `p` begins. */
  function WordStart(p: string): (n: nat)
    ensures n <= |p|
    ensures forall k :: n <= k < |p| ==> IsNameChar(p[k])
    ensures n > 0 ==> !IsNameChar(p[n - 1])
  {
    if p != [] && IsNameChar(p[|p| - 1]) then WordStart(p[..|p| - 1]) else |p|
  }

  /** The word at the end of `p`. */
  function LastWord(p: string): string { p[WordStart(p)..] }

  function Newlines(s: string): nat {
    if s == [] then 0 else Newlines(s[..|s| - 1]) + if s[|s| - 1] == '\n' then 1 else 0
  }

  /** The 1-based number of the line position `i` of `s` lies on. */
  function LineOf(s: string, i: nat): nat
    requires i <= |s|
  {
    1 + Newlines(s[..i])
  }

  lemma LineOfNext(s: string, i: nat)
    requires i < |s|
    ensures LineOf(s, i + 1) == LineOf(s, i) + if s[i] == '\n' then 1 else 0
  {
    assert s[..i + 1][..i] == s[..i];
  }

  lemma {:induction false} LineOfMonotone(s: string, i: nat, j: nat)
    requires i <= j <= |s|
    ensures LineOf(s, i) <= LineOf(s, j)
  {
    if i < j {
      LineOfMonotone(s, i, j - 1);
      LineOfNext(s, j - 1);
    }
  }

  /** Two texts with newlines at the same places have the same line numbers. */
  lemma {:induction false} SameNewlinesSameLines(s: string, t: string, i: nat)
    requires i <= |s| == |t|
    requires forall k :: 0 <= k < i ==> (s[k] == '\n' <==> t[k] == '\n')
    ensures LineOf(s, i) == LineOf(t, i)
  {
    if i > 0 {
      SameNewlinesSameLines(s, t, i - 1);
      LineOfNext(s, i - 1);
      LineOfNext(t, i - 1);
    }
  }
}
