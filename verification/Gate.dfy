/** The compile gate (internal/compile/compile.go, Validate): every text that becomes a
    stable preview, written by the agent or by hand, must pass it. */
module Gate {
  import opened Prelude
  import opened GateText
  import opened GateBlanking
  import opened GateScanner
  import opened GateFaults
  import GateBrackets
  import GateTags
  import Nesting

  const FILE_CONTENT_MAX_BYTES := 204800

  const FORBIDDEN_CODE_PATTERNS := [
    "child_process", "execsync", "spawnSync", "require('fs')", "require(\"fs\")", "npm install",
    "npx ", "yarn add", "pnpm add", "import fs", "process.env"]

  predicate MatchesAt(s: string, i: nat, pattern: string) {
    i + |pattern| <= |s| && s[i..i + |pattern|] == pattern
  }

  predicate Contains(s: string, pattern: string) {
    exists i | 0 <= i <= |s| :: MatchesAt(s, i, pattern)
  }

  function Lower(c: char): char {
    if 'A' <= c <= 'Z' then c - 'A' + 'a' else c
  }

  /** The text in lower case, as far as a search for ASCII text can tell: a char is a byte,
      and of the code points beyond ASCII only U+0130 and U+212A become ASCII letters. */
  function ToLower(s: string): string {
    if s == "" then ""
    else if "\U{C4}\U{B0}" <= s then "i" + ToLower(s[2..])
    else if "\U{E2}\U{84}\U{AA}" <= s then "k" + ToLower(s[3..])
    else [Lower(s[0])] + ToLower(s[1..])
  }

  /** Each byte on its own. */
  function EachLower(s: string): string { seq(|s|, i requires 0 <= i < |s| => Lower(s[i])) }

  predicate IsAscii(s: string) { forall i | 0 <= i < |s| :: s[i] < '\U{80}' }

  lemma {:induction false} AsciiLowers(s: string)
    requires IsAscii(s)
    ensures ToLower(s) == EachLower(s)
  {
    if s != "" {
      assert !("\U{C4}\U{B0}" <= s) by {
        assert "\U{C4}\U{B0}"[0] == '\U{C4}';
      }
      assert !("\U{E2}\U{84}\U{AA}" <= s) by {
        assert "\U{E2}\U{84}\U{AA}"[0] == '\U{E2}';
      }
      AsciiLowers(s[1..]);
    }
  }

  lemma {:induction false} NoCapitals(s: string)
    ensures forall i :: 0 <= i < |ToLower(s)| ==> !('A' <= ToLower(s)[i] <= 'Z')
  {
    if s == "" {
    } else if "\U{C4}\U{B0}" <= s {
      NoCapitals(s[2..]);
    } else if "\U{E2}\U{84}\U{AA}" <= s {
      NoCapitals(s[3..]);
    } else {
      NoCapitals(s[1..]);
    }
  }

  predicate Forbids(content: string, pattern: string) { Contains(ToLower(content), pattern) }

  predicate HasForbidden(content: string) {
    exists k | 0 <= k < |FORBIDDEN_CODE_PATTERNS| :: Forbids(content, FORBIDDEN_CODE_PATTERNS[k])
  }

  /** The content has the pattern, and none that comes before it in the list. */
  ghost predicate FirstForbidden(content: string, pattern: string) {
    exists k :: 0 <= k < |FORBIDDEN_CODE_PATTERNS| && FORBIDDEN_CODE_PATTERNS[k] == pattern && Forbids(content, pattern) &&
                forall j :: 0 <= j < k ==> !Forbids(content, FORBIDDEN_CODE_PATTERNS[j])
  }

  predicate ExportsDefault(content: string) {
    Contains(Blanked(content), "exportdefault") || Contains(Blanked(content), "export default")
  }

  predicate IsBlankText(content: string) { forall c | c in content :: IsSpace(c) || c == '\U{0B}' || c == '\U{0C}' }

  /** What the gate accepts. */
  ghost predicate Passes(content: string) {
    |content| <= FILE_CONTENT_MAX_BYTES &&
    !HasForbidden(content) &&
    ExportsDefault(content) &&
    GateBrackets.BracketsNested(Blanked(content)) &&
    GateTags.TagsNested(Blanked(content))
  }

  datatype Problem =
    | TooLarge
    | EmptyFile
    | Forbidden(pattern: string)
    | NoDefaultExport
    | BracketProblem(bracket: Error<char>)
    | TagProblem(tag: Error<string>)

  /** The text with literals and comments blanked. */
  method Strip(src: string) returns (t: string)
    ensures t == Blanked(src)
  {
    var b := new char[|src|](i requires 0 <= i < |src| => src[i]);
    assert b[..] == src;
    StripStringsAndComments(b);
    t := b[..];
  }

  /** The first forbidden pattern of the content, if any. */
  method ForbiddenInCode(content: string) returns (found: Option<string>)
    ensures if found.Some? then FirstForbidden(content, found.value) else !HasForbidden(content)
  {
    var lower := ToLower(content);
    for k := 0 to |FORBIDDEN_CODE_PATTERNS|
      invariant forall j :: 0 <= j < k ==> !Forbids(content, FORBIDDEN_CODE_PATTERNS[j])
    {
      if Contains(lower, FORBIDDEN_CODE_PATTERNS[k]) {
        return Some(FORBIDDEN_CODE_PATTERNS[k]);
      }
    }
    found := None;
  }

  /** A blank text has no default export, so the gate's own emptiness test never decides. */
  lemma BlankTextFails(content: string)
    requires IsBlankText(content)
    ensures !ExportsDefault(content)
  {
    var t := Blanked(content);
    BlankedOnlyBlanks(content);
    forall i | 0 <= i < |t| ensures t[i] != 'e' {
      assert KeptOrBlank(t, content, i);
      assert content[i] in content;
    }
    NoFirstChar(t, "exportdefault");
    NoFirstChar(t, "export default");
  }

  lemma NoFirstChar(t: string, pattern: string)
    requires pattern != [] && forall i :: 0 <= i < |t| ==> t[i] != pattern[0]
    ensures !Contains(t, pattern)
  {
    forall i | 0 <= i <= |t| ensures !MatchesAt(t, i, pattern) {
      if i + |pattern| <= |t| {
        assert t[i..i + |pattern|][0] == t[i];
      }
    }
  }

  /** What the separate checks find, in the order they run. */
  datatype Findings = Findings(
    tooLarge: bool, blank: bool, forbidden: Option<string>, exported: bool,
    bracket: Option<Error<char>>, tag: Option<Error<string>>)

  ghost predicate FindingsOf(content: string, f: Findings) {
    var t := Blanked(content);
    f.tooLarge == (|content| > FILE_CONTENT_MAX_BYTES) &&
    f.blank == IsBlankText(content) &&
    (if f.forbidden.Some? then FirstForbidden(content, f.forbidden.value) else !HasForbidden(content)) &&
    f.exported == ExportsDefault(content) &&
    f.bracket.None? == GateBrackets.BracketsNested(t) &&
    (f.bracket.Some? ==> Reports(t, GateBrackets.BracketMarks(t), f.bracket.value)) &&
    f.tag.None? == GateTags.TagsNested(t) &&
    (f.tag.Some? ==> Reports(t, GateTags.TagMarks(t), f.tag.value))
  }

  function When(c: bool, p: Problem): seq<Problem> { if c then [p] else [] }

  function Problems(f: Findings): seq<Problem> {
    When(f.tooLarge, TooLarge) + When(f.blank, EmptyFile) +
    (if f.forbidden.Some? then [Forbidden(f.forbidden.value)] else []) +
    When(!f.exported, NoDefaultExport) +
    (if f.bracket.Some? then [BracketProblem(f.bracket.value)] else []) +
    (if f.tag.Some? then [TagProblem(f.tag.value)] else [])
  }

  lemma NoProblemsIffPasses(content: string, f: Findings)
    requires FindingsOf(content, f)
    ensures Problems(f) == [] <==> Passes(content)
  {
    if IsBlankText(content) {
      BlankTextFails(content);
    }
  }

  /** The report names a problem exactly when the check for it finds it. */
  lemma Reported(f: Findings, p: Problem)
    ensures p in Problems(f) <==>
            match p
            case TooLarge => f.tooLarge
            case EmptyFile => f.blank
            case Forbidden(q) => f.forbidden == Some(q)
            case NoDefaultExport => !f.exported
            case BracketProblem(e) => f.bracket == Some(e)
            case TagProblem(e) => f.tag == Some(e)
  {
  }

  /** Which problems the gate reports of a text. */
  lemma ProblemsExactly(content: string, f: Findings)
    requires FindingsOf(content, f)
    ensures TooLarge in Problems(f) <==> |content| > 204800
    ensures EmptyFile in Problems(f) <==> IsBlankText(content)
    ensures NoDefaultExport in Problems(f) <==>
            !Contains(Blanked(content), "exportdefault") && !Contains(Blanked(content), "export default")
    ensures forall q :: Forbidden(q) in Problems(f) <==> FirstForbidden(content, q)
    ensures forall e :: BracketProblem(e) in Problems(f) <==>
                        !GateBrackets.BracketsNested(Blanked(content)) &&
                        Reports(Blanked(content), GateBrackets.BracketMarks(Blanked(content)), e)
    ensures forall e :: TagProblem(e) in Problems(f) <==>
                        !GateTags.TagsNested(Blanked(content)) &&
                        Reports(Blanked(content), GateTags.TagMarks(Blanked(content)), e)
  {
    hide Problems, Blanked, Contains, IsBlankText, HasForbidden, FirstForbidden, Reports,
      GateBrackets.BracketMarks, GateTags.TagMarks;
    var t := Blanked(content);
    Reported(f, TooLarge);
    Reported(f, EmptyFile);
    Reported(f, NoDefaultExport);
    forall q ensures Forbidden(q) in Problems(f) <==> FirstForbidden(content, q) {
      Reported(f, Forbidden(q));
      OneFirstForbidden(content, f.forbidden, q);
    }
    forall e ensures BracketProblem(e) in Problems(f) <==>
                     !GateBrackets.BracketsNested(t) && Reports(t, GateBrackets.BracketMarks(t), e) {
      Reported(f, BracketProblem(e));
      if f.bracket.Some? && Reports(t, GateBrackets.BracketMarks(t), e) {
        ReportUnique(t, GateBrackets.BracketMarks(t), e, f.bracket.value);
      }
    }
    forall e ensures TagProblem(e) in Problems(f) <==>
                     !GateTags.TagsNested(t) && Reports(t, GateTags.TagMarks(t), e) {
      Reported(f, TagProblem(e));
      if f.tag.Some? && Reports(t, GateTags.TagMarks(t), e) {
        ReportUnique(t, GateTags.TagMarks(t), e, f.tag.value);
      }
    }
  }

  lemma OneFirstForbidden(content: string, found: Option<string>, q: string)
    requires if found.Some? then FirstForbidden(content, found.value) else !HasForbidden(content)
    ensures FirstForbidden(content, q) <==> found == Some(q)
  {
    hide Forbids;
    if FirstForbidden(content, q) {
      var k :| 0 <= k < |FORBIDDEN_CODE_PATTERNS| && FORBIDDEN_CODE_PATTERNS[k] == q && Forbids(content, q) &&
               forall j :: 0 <= j < k ==> !Forbids(content, FORBIDDEN_CODE_PATTERNS[j]);
      assert HasForbidden(content);
      var i :| 0 <= i < |FORBIDDEN_CODE_PATTERNS| && FORBIDDEN_CODE_PATTERNS[i] == found.value && Forbids(content, found.value) &&
               forall j :: 0 <= j < i ==> !Forbids(content, FORBIDDEN_CODE_PATTERNS[j]);
      assert i == k;
    }
  }

  /** A pattern is found exactly in the texts that can be split around it. */
  lemma FoundExactly(s: string, pattern: string)
    ensures Contains(s, pattern) <==> exists u, v :: s == u + pattern + v
  {
    if Contains(s, pattern) {
      var i :| 0 <= i <= |s| && MatchesAt(s, i, pattern);
      assert s == s[..i] + pattern + s[i + |pattern|..];
    }
    if u, v :| s == u + pattern + v {
      assert s[|u|..|u| + |pattern|] == pattern;
      assert MatchesAt(s, |u|, pattern);
    }
  }

  /** Runs every check. */
  method Check(content: string) returns (f: Findings)
    ensures FindingsOf(content, f)
  {
    var forbidden := ForbiddenInCode(content);
    var t := Strip(content);
    var bracket := GateBrackets.CheckBrackets(t);
    var tag := GateTags.CheckTags(t);
    f := Findings(|content| > FILE_CONTENT_MAX_BYTES, IsBlankText(content), forbidden,
                  ExportsDefault(content), bracket, tag);
  }

  /** The content passes when no check finds a problem. */
  method Validate(content: string) returns (pass: bool, errs: seq<Problem>)
    ensures pass == Passes(content) == (errs == [])
    ensures exists f :: FindingsOf(content, f) && errs == Problems(f)
  {
    var f := Check(content);
    NoProblemsIffPasses(content, f);
    errs := Problems(f);
    pass := |errs| == 0;
  }

  /** Lower-cased text has no upper-case letter, so a pattern with one never matches. */
  lemma SpawnSyncNeverMatches(content: string)
    ensures !Forbids(content, "spawnSync")
  {
    var t := ToLower(content);
    var pattern := "spawnSync";
    assert pattern[5] == 'S';
    NoCapitals(content);
    forall i | 0 <= i <= |t| ensures !MatchesAt(t, i, pattern) {
      if i + |pattern| <= |t| {
        assert t[i..i + |pattern|][5] == t[i + 5];
      }
    }
  }

  /** So the ban is exactly the ban on the other ten patterns. */
  lemma ForbiddenWithoutSpawnSync(content: string)
    ensures HasForbidden(content) <==>
            Forbids(content, "child_process") || Forbids(content, "execsync") ||
            Forbids(content, "require('fs')") || Forbids(content, "require(\"fs\")") || Forbids(content, "npm install") ||
            Forbids(content, "npx ") || Forbids(content, "yarn add") || Forbids(content, "pnpm add") ||
            Forbids(content, "import fs") || Forbids(content, "process.env")
  {
    SpawnSyncNeverMatches(content);
    var ps := FORBIDDEN_CODE_PATTERNS;
    assert HasForbidden(content) <==>
           Forbids(content, ps[0]) || Forbids(content, ps[1]) || Forbids(content, ps[2]) || Forbids(content, ps[3]) ||
           Forbids(content, ps[4]) || Forbids(content, ps[5]) || Forbids(content, ps[6]) || Forbids(content, ps[7]) ||
           Forbids(content, ps[8]) || Forbids(content, ps[9]) || Forbids(content, ps[10]);
  }

  lemma {:induction false} LowersFirst(c: char, v: string)
    requires c < '\U{80}'
    ensures ToLower([c] + v) == [Lower(c)] + ToLower(v)
  {
    var t := [c] + v;
    assert t[0] == c && t[1..] == v;
    assert "\U{C4}\U{B0}"[0] == '\U{C4}' && "\U{E2}\U{84}\U{AA}"[0] == '\U{E2}';
  }

  lemma {:induction false} AsciiFirst(x: string, v: string)
    requires IsAscii(x)
    ensures ToLower(x + v) == EachLower(x) + ToLower(v)
    decreases |x|
  {
    hide ToLower;
    if x == "" {
      assert x + v == v;
    } else {
      assert x + v == [x[0]] + (x[1..] + v);
      LowersFirst(x[0], x[1..] + v);
      AsciiFirst(x[1..], v);
      assert EachLower(x) == [Lower(x[0])] + EachLower(x[1..]);
    }
  }

  lemma {:induction false} LowersApart(u: string, x: string, v: string)
    requires x != "" && IsAscii(x)
    ensures ToLower(u + x + v) == ToLower(u) + EachLower(x) + ToLower(v)
    decreases |u|, 1
  {
    if u == "" {
      assert u + x + v == x + v;
      AsciiFirst(x, v);
    } else {
      LowersRest(u, x, v);
    }
  }

  /** How many bytes of `u` are lower-cased together at its start. */
  function Together(u: string): (n: nat)
    requires u != ""
    ensures 0 < n <= |u|
  {
    if "\U{C4}\U{B0}" <= u then 2 else if "\U{E2}\U{84}\U{AA}" <= u then 3 else 1
  }

  /** What the bytes lower-cased together at the start of `u` become. */
  function FirstLower(u: string): string
    requires u != ""
  {
    if "\U{C4}\U{B0}" <= u then "i" else if "\U{E2}\U{84}\U{AA}" <= u then "k" else [Lower(u[0])]
  }

  lemma {:induction false} LowersTogether(u: string)
    requires u != ""
    ensures ToLower(u) == FirstLower(u) + ToLower(u[Together(u)..])
  {
  }

  /** An ASCII byte that follows is no part of what is lower-cased together. */
  lemma TogetherBefore(u: string, r: string)
    requires u != "" && r != "" && r[0] < '\U{80}'
    ensures Together(u + r) == Together(u) && FirstLower(u + r) == FirstLower(u)
  {
    var t, a, b := u + r, "\U{C4}\U{B0}", "\U{E2}\U{84}\U{AA}";
    assert forall i :: 0 <= i < |u| ==> t[i] == u[i];
    assert t[|u|] == r[0];
    assert a <= t <==> |t| >= 2 && t[0] == a[0] && t[1] == a[1];
    assert a <= u <==> |u| >= 2 && u[0] == a[0] && u[1] == a[1];
    assert b <= t <==> |t| >= 3 && t[0] == b[0] && t[1] == b[1] && t[2] == b[2];
    assert b <= u <==> |u| >= 3 && u[0] == b[0] && u[1] == b[1] && u[2] == b[2];
  }

  lemma {:induction false} LowersRest(u: string, x: string, v: string)
    requires u != "" && x != "" && IsAscii(x)
    ensures ToLower(u + x + v) == ToLower(u) + EachLower(x) + ToLower(v)
    decreases |u|, 0
  {
    hide ToLower, FirstLower, Together;
    var t, n := u + x + v, Together(u);
    assert t == u + (x + v) && t[n..] == u[n..] + x + v;
    TogetherBefore(u, x + v);
    LowersTogether(t);
    LowersTogether(u);
    LowersApart(u[n..], x, v);
  }

  /** A pattern of lower-case ASCII text is found in any text that has it in any case. */
  lemma CaseDoesNotHide(u: string, x: string, v: string)
    requires x != "" && IsAscii(x)
    ensures Forbids(u + x + v, EachLower(x))
  {
    LowersApart(u, x, v);
    var t, i := ToLower(u) + EachLower(x) + ToLower(v), |ToLower(u)|;
    assert t[i..i + |x|] == EachLower(x);
    assert MatchesAt(t, i, EachLower(x));
  }

  lemma {:induction false} DottedLowers(s: string)
    ensures ToLower("\U{C4}\U{B0}" + s) == "i" + ToLower(s)
  {
    var t := "\U{C4}\U{B0}" + s;
    assert t[2..] == s;
  }

  /** A capital I with a dot is lower-cased to an i, so it does not get around the ban. */
  lemma {:induction false} DottedCapitalIsFound(s: string)
    requires "mport fs" <= ToLower(s)
    ensures Forbids("\U{C4}\U{B0}" + s, "import fs")
  {
    DottedLowers(s);
    var t := "i" + ToLower(s);
    assert t[..9] == "i" + ToLower(s)[..8] == "import fs";
    assert MatchesAt(t, 0, "import fs");
  }

  /* A component that names spawnSync and passes the gate. */

  const SPAWNING := "export default spawnSync"

  predicate Plain(c: char) { c == ' ' || 'a' <= c <= 'z' }

  lemma SpawningIsPlain()
    ensures forall i :: 0 <= i < |SPAWNING| ==> Plain(EachLower(SPAWNING)[i]) && EachLower(SPAWNING)[i] !in "im"
    ensures forall i :: 0 <= i < |SPAWNING| ==> (EachLower(SPAWNING)[i] == 'x' <==> i == 1)
    ensures forall i :: 0 <= i < |SPAWNING| ==> (EachLower(SPAWNING)[i] == 'y' <==> i == 21)
    ensures EachLower(SPAWNING)[0] == 'e' && EachLower(SPAWNING)[2] == 'p' && EachLower(SPAWNING)[22] == 'n'
  {
  }

  /** A pattern with a byte the text lacks is absent. */
  lemma LacksByte(t: string, p: string, j: nat)
    requires j < |p| && forall i :: 0 <= i < |t| ==> t[i] != p[j]
    ensures !Contains(t, p)
  {
    forall i | 0 <= i <= |t| ensures !MatchesAt(t, i, p) {
      if i + |p| <= |t| {
        assert t[i..i + |p|][j] == t[i + j];
      }
    }
  }

  /** A pattern that has a byte the text has only at position `at`, in other company. */
  lemma LacksPair(t: string, p: string, j: nat, k: nat, at: nat)
    requires j < |p| && k < |p| && forall i :: 0 <= i < |t| ==> t[i] == p[j] ==> i == at
    requires j <= at ==> at - j + k < |t| && t[at - j + k] != p[k]
    ensures !Contains(t, p)
  {
    forall i | 0 <= i <= |t| ensures !MatchesAt(t, i, p) {
      if i + |p| <= |t| {
        assert t[i..i + |p|][j] == t[i + j] && t[i..i + |p|][k] == t[i + k];
      }
    }
  }

  lemma NotForbidden(s: string)
    requires IsAscii(s)
    requires forall k :: 0 <= k < |FORBIDDEN_CODE_PATTERNS| ==> !Contains(EachLower(s), FORBIDDEN_CODE_PATTERNS[k])
    ensures !HasForbidden(s)
  {
    AsciiLowers(s);
  }

  lemma SpawningLacksCalls()
    ensures forall k :: 0 <= k < 5 ==> !Contains(EachLower(SPAWNING), FORBIDDEN_CODE_PATTERNS[k])
  {
    var t := EachLower(SPAWNING);
    SpawningIsPlain();
    LacksByte(t, "child_process", 5);
    LacksPair(t, "execsync", 1, 2, 1);
    LacksByte(t, "spawnSync", 5);
    LacksByte(t, "require('fs')", 7);
    LacksByte(t, "require(\"fs\")", 7);
  }

  lemma SpawningLacksOthers()
    ensures forall k :: 5 <= k < |FORBIDDEN_CODE_PATTERNS| ==> !Contains(EachLower(SPAWNING), FORBIDDEN_CODE_PATTERNS[k])
  {
    var t := EachLower(SPAWNING);
    SpawningIsPlain();
    LacksByte(t, "npm install", 2);
    LacksPair(t, "npx ", 2, 1, 1);
    LacksPair(t, "yarn add", 0, 1, 21);
    LacksByte(t, "pnpm add", 3);
    LacksByte(t, "import fs", 1);
    LacksByte(t, "process.env", 7);
  }

  lemma SpawningNotForbidden()
    ensures !HasForbidden(SPAWNING)
  {
    SpawningLacksCalls();
    SpawningLacksOthers();
    NotForbidden(SPAWNING);
  }

  lemma {:induction false} NoMarksNoTokens<K>(marks: Nesting.Marks<K>)
    requires forall i :: 0 <= i < |marks| ==> marks[i] == None
    ensures Nesting.Tokens(marks) == []
  {
    if marks != [] {
      NoMarksNoTokens(marks[..|marks| - 1]);
    }
  }

  lemma LettersAreStructureless(s: string)
    requires forall i :: 0 <= i < |s| ==> Plain(Lower(s[i]))
    ensures Blanked(s) == s && GateBrackets.BracketsNested(s) && GateTags.TagsNested(s)
  {
    assert s[..0] == [] && s[0..] == s;
    CleanIsFixed(s, 0);
    forall i | 0 <= i < |s|
      ensures GateBrackets.BracketMark(s[i]) == None && GateTags.TagMark(s, i) == None
    {
      assert Plain(Lower(s[i]));
    }
    NoMarksNoTokens(GateBrackets.BracketMarks(s));
    NoMarksNoTokens(GateTags.TagMarks(s));
    assert Nesting.Word<char>(Nesting.Empty) == [] && Nesting.Word<string>(Nesting.Empty) == [];
  }

  lemma SpawningMatches()
    ensures Contains(SPAWNING, "spawnSync") && Contains(SPAWNING, "export default")
  {
    assert MatchesAt(SPAWNING, 15, "spawnSync");
    assert MatchesAt(SPAWNING, 0, "export default");
  }

  /** The gate accepts a text that names spawnSync, although the pattern list names it. */
  lemma SpawnSyncPasses()
    ensures Contains(SPAWNING, "spawnSync") && Passes(SPAWNING)
  {
    SpawningNotForbidden();
    SpawningIsPlain();
    SpawningMatches();
    var t := EachLower(SPAWNING);
    forall i | 0 <= i < |SPAWNING| ensures Plain(Lower(SPAWNING[i])) {
      assert t[i] == Lower(SPAWNING[i]);
    }
    LettersAreStructureless(SPAWNING);
  }
}
