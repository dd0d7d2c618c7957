/** The look-back of the compile gate on texts taken apart: what stands before a position once
    white space is passed over.  Bytes and words are written out here, so that the laws about
    quotes and tags say for which bytes they hold. */
module GateLookBack {
  import opened GateText

  predicate White(w: string) { forall i | 0 <= i < |w| :: w[i] in " \t\n\r" }

  predicate Letter(c: char) { 'a' <= c <= 'z' || 'A' <= c <= 'Z' || c == '_' }

  predicate Digit(c: char) { '0' <= c <= '9' }

  predicate NameByte(c: char) { Letter(c) || Digit(c) || c == '.' || c == '-' }

  /** The words a value must follow. */
  const KEYWORDS := ["return", "throw", "yield", "await", "typeof", "void", "delete", "new",
                     "instanceof", "in", "of", "do", "else", "case", "default"]

  /** No word runs up to the end of `u`. */
  predicate EndsNoWord(u: string) { u == "" || !NameByte(u[|u| - 1]) }

  /** A word that a letter ends, after something that is no part of it. */
  predicate WordAfter(u: string, word: string) {
    EndsNoWord(u) && word != "" && Letter(word[|word| - 1]) && forall i | 0 <= i < |word| :: NameByte(word[i])
  }

  lemma KeywordsAgree(word: string)
    ensures IsOperandKeyword(word) <==> word in KEYWORDS
  {
  }

  lemma {:induction false} WhiteIsNothing(w: string)
    requires White(w)
    ensures Significant(w) == ""
  {
    if w != "" {
      assert w[|w| - 1] in " \t\n\r";
      WhiteIsNothing(w[..|w| - 1]);
    }
  }

  lemma {:induction false} WhiteIsPassed(u: string, c: char, w: string)
    requires White(w) && c !in " \t\n\r"
    ensures Significant(u + [c] + w) == u + [c]
    decreases |w|
  {
    var p := u + [c] + w;
    if w == "" {
      assert p == u + [c];
    } else {
      assert p[|p| - 1] == w[|w| - 1] && w[|w| - 1] in " \t\n\r";
      assert p[..|p| - 1] == u + [c] + w[..|w| - 1];
      WhiteIsPassed(u, c, w[..|w| - 1]);
    }
  }

  lemma {:induction false} WordIsLast(u: string, word: string)
    requires EndsNoWord(u) && forall i :: 0 <= i < |word| ==> NameByte(word[i])
    ensures WordStart(u + word) == |u|
    decreases |word|
  {
    var p := u + word;
    if word == "" {
      assert p == u;
    } else {
      var shorter := word[..|word| - 1];
      assert p[..|p| - 1] == u + shorter && p[|p| - 1] == word[|word| - 1];
      assert forall i :: 0 <= i < |shorter| ==> shorter[i] == word[i];
      WordIsLast(u, shorter);
    }
  }

  /** After a word and white space the look-back finds the word. */
  lemma {:induction false} WordIsFound(u: string, word: string, w: string)
    requires WordAfter(u, word) && White(w)
    ensures Significant(u + word + w) == u + word && LastWord(u + word) == word
  {
    var c := word[|word| - 1];
    var v := u + word[..|word| - 1];
    assert u + word == v + [c];
    WhiteIsPassed(v, c, w);
    WordIsLast(u, word);
    assert (u + word)[|u|..] == word;
  }
}
