/** Well-nestedness, as the bracket and tag passes of the compile gate need it: a grammar,
    a stack reading of it, and what a first fault is. */
module Nesting {
  import opened Prelude

  datatype Token<K> = Open(kind: K) | Close(kind: K)

  /** The grammar of well-nested token sequences: a list of matched pairs. */
  datatype Forest<K> = Empty | Node(kind: K, inside: Forest<K>, after: Forest<K>)

  function Word<K>(f: Forest<K>): seq<Token<K>> {
    match f
    case Empty => []
    case Node(k, inside, after) => [Open(k)] + Word(inside) + [Close(k)] + Word(after)
  }

  ghost predicate Nested<K(!new)>(w: seq<Token<K>>) {
    exists f: Forest<K> :: Word(f) == w
  }

  /** Some continuation makes `w` well nested. */
  ghost predicate Extendable<K(!new)>(w: seq<Token<K>>) {
    exists c: seq<Token<K>> :: Nested(w + c)
  }

  /** Reads `w` with a stack whose top is its last element; None when a close does not match. */
  function Read<K(==)>(stack: seq<K>, w: seq<Token<K>>): Option<seq<K>>
    decreases |w|
  {
    if w == [] then Some(stack)
    else match w[0]
      case Open(k) => Read(stack + [k], w[1..])
      case Close(k) =>
        if stack != [] && stack[|stack| - 1] == k then Read(stack[..|stack| - 1], w[1..]) else None
  }

  /* ---- The stack reading decides the grammar ---- */

  lemma {:induction false} ReadAppend<K>(stack: seq<K>, u: seq<Token<K>>, v: seq<Token<K>>)
    ensures Read(stack, u + v) == match Read(stack, u) case None => None case Some(s) => Read(s, v)
    decreases |u|
  {
    if u == [] {
      assert u + v == v;
    } else {
      assert (u + v)[1..] == u[1..] + v;
      match u[0]
      case Open(k) => ReadAppend(stack + [k], u[1..], v);
      case Close(k) =>
        if stack != [] && stack[|stack| - 1] == k {
          ReadAppend(stack[..|stack| - 1], u[1..], v);
        }
    }
  }

  lemma {:induction false} ReadWord<K>(stack: seq<K>, f: Forest<K>)
    ensures Read(stack, Word(f)) == Some(stack)
    decreases f
  {
    match f
    case Empty =>
    case Node(k, inside, after) =>
      var a, b, c := [Open(k)], Word(inside), [Close(k)];
      assert Word(f) == a + (b + (c + Word(after)));
      ReadAppend(stack, a, b + (c + Word(after)));
      assert Read(stack, a) == Some(stack + [k]);
      ReadWord(stack + [k], inside);
      ReadAppend(stack + [k], b, c + Word(after));
      assert (stack + [k])[..|stack|] == stack;
      ReadAppend(stack + [k], c, Word(after));
      ReadWord(stack, after);
  }

  /** Closes the open kinds of `stack`, top first, with a well-nested stretch before each
      close and one at the end. */
  function Weave<K>(stack: seq<K>, fs: seq<Forest<K>>): seq<Token<K>>
    requires |fs| == |stack| + 1
    decreases |stack|, 1
  {
    Word(fs[0]) + WeaveRest(stack, fs[1..])
  }

  function WeaveRest<K>(stack: seq<K>, fs: seq<Forest<K>>): seq<Token<K>>
    requires |fs| == |stack|
    decreases |stack|, 0
  {
    if stack == [] then [] else [Close(stack[|stack| - 1])] + Weave(stack[..|stack| - 1], fs)
  }

  lemma Reassociate<T>(a: seq<T>, b: seq<T>, c: seq<T>, d: seq<T>, e: seq<T>)
    ensures a + (b + (c + (d + e))) == (a + b + c + d) + e
  {
  }

  lemma {:induction false} WeaveDeeper<K>(stack: seq<K>, k: K, fs: seq<Forest<K>>)
    requires |fs| == |stack| + 2
    ensures Weave(stack + [k], fs) == Word(fs[0]) + ([Close(k)] + (Word(fs[1]) + WeaveRest(stack, fs[2..])))
  {
    var deeper, gs := stack + [k], fs[1..];
    assert deeper[..|deeper| - 1] == stack && deeper[|deeper| - 1] == k;
    assert gs[1..] == fs[2..] && gs[0] == fs[1];
    calc {
      WeaveRest(deeper, gs);
      [Close(k)] + Weave(stack, gs);
      [Close(k)] + (Word(fs[1]) + WeaveRest(stack, fs[2..]));
    }
  }

  lemma {:induction false} WeavePair<K>(stack: seq<K>, k: K, fs: seq<Forest<K>>)
    requires |fs| == |stack| + 2
    ensures [Open(k)] + Weave(stack + [k], fs) == Weave(stack, [Node(k, fs[0], fs[1])] + fs[2..])
  {
    WeaveDeeper(stack, k, fs);
    var gs := [Node(k, fs[0], fs[1])] + fs[2..];
    assert gs[1..] == fs[2..];
    Reassociate([Open(k)], Word(fs[0]), [Close(k)], Word(fs[1]), WeaveRest(stack, fs[2..]));
    assert Word(gs[0]) == [Open(k)] + Word(fs[0]) + [Close(k)] + Word(fs[1]);
  }

  /** A reading that ends empty parses the text. */
  lemma {:induction false} ReadParses<K>(stack: seq<K>, w: seq<Token<K>>) returns (fs: seq<Forest<K>>)
    requires Read(stack, w) == Some([])
    ensures |fs| == |stack| + 1 && Weave(stack, fs) == w
    decreases |w|
  {
    if w == [] {
      fs := [Empty];
    } else {
      match w[0]
      case Open(k) =>
        var gs := ReadParses(stack + [k], w[1..]);
        WeavePair(stack, k, gs);
        fs := [Node(k, gs[0], gs[1])] + gs[2..];
      case Close(k) =>
        var gs := ReadParses(stack[..|stack| - 1], w[1..]);
        fs := [Empty] + gs;
        assert fs[1..] == gs;
    }
  }

  /** Reading with an empty stack ends empty exactly on the well-nested sequences. */
  lemma {:induction false} NestedIffRead<K(!new)>(w: seq<Token<K>>)
    ensures Nested(w) <==> Read([], w) == Some([])
  {
    if Nested(w) {
      var f: Forest<K> :| Word(f) == w;
      ReadWord([], f);
    }
    if Read([], w) == Some([]) {
      var fs := ReadParses([], w);
      assert Word(fs[0]) == w;
    }
  }

  function Closers<K>(stack: seq<K>): seq<Token<K>> {
    if stack == [] then [] else [Close(stack[|stack| - 1])] + Closers(stack[..|stack| - 1])
  }

  lemma {:induction false} ReadClosers<K>(stack: seq<K>)
    ensures Read(stack, Closers(stack)) == Some([])
    decreases |stack|
  {
    if stack != [] {
      var c := Closers(stack);
      assert c[1..] == Closers(stack[..|stack| - 1]);
      ReadClosers(stack[..|stack| - 1]);
    }
  }

  /** The stack reading survives exactly on the sequences some continuation can complete. */
  lemma {:induction false} ExtendableIffRead<K(!new)>(w: seq<Token<K>>)
    ensures Extendable(w) <==> Read([], w).Some?
  {
    if Extendable(w) {
      var c: seq<Token<K>> :| Nested(w + c);
      NestedIffRead(w + c);
      ReadAppend([], w, c);
    }
    if Read([], w).Some? {
      var stack := Read([], w).value;
      ReadClosers(stack);
      ReadAppend([], w, Closers(stack));
      NestedIffRead(w + Closers(stack));
    }
  }

  lemma NestedIsExtendable<K(!new)>(w: seq<Token<K>>)
    ensures Nested(w) ==> Extendable(w)
  {
    NestedIffRead(w);
    ExtendableIffRead(w);
  }

  /* ---- Texts: at each position there may be a token ---- */

  type Marks<K> = seq<Option<Token<K>>>

  function Tokens<K>(marks: Marks<K>): seq<Token<K>> {
    if marks == [] then []
    else
      var rest := Tokens(marks[..|marks| - 1]);
      match marks[|marks| - 1] case None => rest case Some(t) => rest + [t]
  }

  lemma {:induction false} TokensAppend<K>(a: Marks<K>, b: Marks<K>)
    ensures Tokens(a + b) == Tokens(a) + Tokens(b)
    decreases |b|
  {
    if b == [] {
      assert a + b == a;
    } else {
      TokensAppend(a, b[..|b| - 1]);
      assert (a + b)[..|a + b| - 1] == a + b[..|b| - 1];
    }
  }

  /** Position `q` opens what is still open, and innermost, just before position `n`. */
  ghost predicate InnermostOpen<K(!new)>(marks: Marks<K>, q: nat, n: nat, kind: K) {
    q < n <= |marks| && marks[q] == Some(Open(kind)) && Nested(Tokens(marks[q + 1..n]))
  }

  datatype Fault<K> =
    | UnexpectedClose(at: nat, kind: K)
    | MismatchedClose(at: nat, kind: K, expected: K)
    | Unclosed(at: nat, kind: K)

  /** What each kind of fault means for the text. */
  ghost predicate IsFault<K(!new)>(marks: Marks<K>, fault: Fault<K>) {
    match fault
    case UnexpectedClose(p, k) =>
      p < |marks| && marks[p] == Some(Close(k)) && Nested(Tokens(marks[..p]))
    case MismatchedClose(p, k, x) =>
      p < |marks| && marks[p] == Some(Close(k)) && x != k &&
      Extendable(Tokens(marks[..p])) && exists q :: InnermostOpen(marks, q, p, x)
    case Unclosed(q, k) =>
      Extendable(Tokens(marks)) && InnermostOpen(marks, q, |marks|, k)
  }

  /** Position `q` opens `kind`, and between it and position `n` the kinds `above` stay open. */
  ghost predicate OpenSince<K(!new)>(marks: Marks<K>, n: nat, q: nat, kind: K, above: seq<K>) {
    q < n <= |marks| && marks[q] == Some(Open(kind)) && Read([], Tokens(marks[q + 1..n])) == Some(above)
  }

  /** The stack just before position `n`, with the position of each open token. */
  ghost predicate Stacked<K(!new)>(marks: Marks<K>, n: nat, kinds: seq<K>, at: seq<nat>) {
    n <= |marks| && |at| == |kinds| &&
    Read([], Tokens(marks[..n])) == Some(kinds) &&
    forall m :: 0 <= m < |at| ==> OpenSince(marks, n, at[m], kinds[m], kinds[m + 1..])
  }

  lemma TokensNext<K>(marks: Marks<K>, a: nat, n: nat)
    requires a <= n < |marks|
    ensures Tokens(marks[a..n + 1]) ==
            match marks[n] case None => Tokens(marks[a..n]) case Some(t) => Tokens(marks[a..n]) + [t]
  {
    assert marks[a..n + 1][..n - a] == marks[a..n];
  }

  lemma {:induction false} ReadNext<K>(marks: Marks<K>, a: nat, n: nat, stack: seq<K>)
    requires a <= n < |marks| && Read([], Tokens(marks[a..n])) == Some(stack)
    ensures Read([], Tokens(marks[a..n + 1])) ==
            match marks[n]
            case None => Some(stack)
            case Some(t) => Read(stack, [t])
  {
    TokensNext(marks, a, n);
    if marks[n].Some? {
      ReadAppend([], Tokens(marks[a..n]), [marks[n].value]);
    }
  }

  lemma SinceSkip<K(!new)>(marks: Marks<K>, n: nat, q: nat, kind: K, above: seq<K>)
    requires OpenSince(marks, n, q, kind, above) && n < |marks| && marks[n] == None
    ensures OpenSince(marks, n + 1, q, kind, above)
  {
    ReadNext(marks, q + 1, n, above);
  }

  lemma SincePush<K(!new)>(marks: Marks<K>, n: nat, q: nat, kind: K, above: seq<K>, k: K)
    requires OpenSince(marks, n, q, kind, above) && n < |marks| && marks[n] == Some(Open(k))
    ensures OpenSince(marks, n + 1, q, kind, above + [k])
  {
    ReadNext(marks, q + 1, n, above);
  }

  lemma SincePop<K(!new)>(marks: Marks<K>, n: nat, q: nat, kind: K, above: seq<K>, k: K)
    requires OpenSince(marks, n, q, kind, above) && n < |marks| && marks[n] == Some(Close(k))
    requires above != [] && above[|above| - 1] == k
    ensures OpenSince(marks, n + 1, q, kind, above[..|above| - 1])
  {
    ReadNext(marks, q + 1, n, above);
  }

  lemma SinceNow<K(!new)>(marks: Marks<K>, n: nat, k: K)
    requires n < |marks| && marks[n] == Some(Open(k))
    ensures OpenSince(marks, n + 1, n, k, [])
  {
    assert marks[n + 1..n + 1] == [];
  }

  lemma StackedSkip<K(!new)>(marks: Marks<K>, n: nat, kinds: seq<K>, at: seq<nat>)
    requires Stacked(marks, n, kinds, at) && n < |marks| && marks[n] == None
    ensures Stacked(marks, n + 1, kinds, at)
  {
    ReadNext(marks, 0, n, kinds);
    forall m | 0 <= m < |at| ensures OpenSince(marks, n + 1, at[m], kinds[m], kinds[m + 1..]) {
      SinceSkip(marks, n, at[m], kinds[m], kinds[m + 1..]);
    }
  }

  lemma StackedPush<K(!new)>(marks: Marks<K>, n: nat, kinds: seq<K>, at: seq<nat>, k: K)
    requires Stacked(marks, n, kinds, at) && n < |marks| && marks[n] == Some(Open(k))
    ensures Stacked(marks, n + 1, kinds + [k], at + [n])
  {
    ReadNext(marks, 0, n, kinds);
    var kinds', at' := kinds + [k], at + [n];
    forall m | 0 <= m < |at'| ensures OpenSince(marks, n + 1, at'[m], kinds'[m], kinds'[m + 1..]) {
      if m < |at| {
        SincePush(marks, n, at[m], kinds[m], kinds[m + 1..], k);
        assert kinds'[m + 1..] == kinds[m + 1..] + [k];
      } else {
        SinceNow(marks, n, k);
        assert kinds'[m + 1..] == [];
      }
    }
  }

  lemma StackedPop<K(!new)>(marks: Marks<K>, n: nat, kinds: seq<K>, at: seq<nat>, k: K)
    requires Stacked(marks, n, kinds, at) && n < |marks| && marks[n] == Some(Close(k))
    requires kinds != [] && kinds[|kinds| - 1] == k
    ensures Stacked(marks, n + 1, kinds[..|kinds| - 1], at[..|at| - 1])
  {
    hide OpenSince, Nested;
    ReadNext(marks, 0, n, kinds);
    var kinds', at' := kinds[..|kinds| - 1], at[..|at| - 1];
    forall m | 0 <= m < |at'| ensures OpenSince(marks, n + 1, at'[m], kinds'[m], kinds'[m + 1..]) {
      var upper := kinds[m + 1..];
      SincePop(marks, n, at[m], kinds[m], upper, k);
      assert upper[..|upper| - 1] == kinds'[m + 1..];
    }
  }

  lemma StackedTop<K(!new)>(marks: Marks<K>, n: nat, kinds: seq<K>, at: seq<nat>)
    requires Stacked(marks, n, kinds, at)
    ensures Extendable(Tokens(marks[..n])) && (Nested(Tokens(marks[..n])) <==> kinds == [])
    ensures kinds != [] ==> InnermostOpen(marks, at[|at| - 1], n, kinds[|kinds| - 1])
  {
    ExtendableIffRead(Tokens(marks[..n]));
    NestedIffRead(Tokens(marks[..n]));
    if kinds != [] {
      assert kinds[|kinds|..] == [];
      NestedIffRead(Tokens(marks[at[|at| - 1] + 1..n]));
    }
  }

  /* ---- What a fault says about the text ---- */

  /** A close that is a fault ends the shortest prefix no continuation can complete. */
  lemma CloseFaultIsFirstDead<K(!new)>(marks: Marks<K>, fault: Fault<K>)
    requires IsFault(marks, fault) && !fault.Unclosed?
    ensures forall n :: 0 <= n <= |marks| ==> (Extendable(Tokens(marks[..n])) <==> n <= fault.at)
  {
    var p := fault.at;
    var before := Tokens(marks[..p]);
    ExtendableIffRead(before);
    if fault.UnexpectedClose? {
      NestedIffRead(before);
    } else {
      var q :| InnermostOpen(marks, q, p, fault.expected);
      var inside := Tokens(marks[q + 1..p]);
      NestedIffRead(inside);
      ReadThrough(marks, q, p, fault.expected);
    }
    ReadNext(marks, 0, p, Read([], before).value);
    ExtendableIffRead(Tokens(marks[..p + 1]));
    forall n | 0 <= n <= |marks|
      ensures Extendable(Tokens(marks[..n])) <==> n <= p
    {
      if n <= p {
        ExtendablePrefix(marks, n, p);
      } else if Extendable(Tokens(marks[..n])) {
        ExtendablePrefix(marks, p + 1, n);
      }
    }
  }

  lemma ExtendablePrefix<K(!new)>(marks: Marks<K>, m: nat, n: nat)
    requires m <= n <= |marks| && Extendable(Tokens(marks[..n]))
    ensures Extendable(Tokens(marks[..m]))
  {
    assert marks[..n] == marks[..m] + marks[m..n];
    TokensAppend(marks[..m], marks[m..n]);
    ReadAppend([], Tokens(marks[..m]), Tokens(marks[m..n]));
    ExtendableIffRead(Tokens(marks[..n]));
    ExtendableIffRead(Tokens(marks[..m]));
  }

  /** What is innermost open is on top of the stack. */
  lemma ReadThrough<K(!new)>(marks: Marks<K>, q: nat, n: nat, kind: K)
    requires InnermostOpen(marks, q, n, kind) && Extendable(Tokens(marks[..n]))
    ensures Read([], Tokens(marks[..n])).Some?
    ensures var stack := Read([], Tokens(marks[..n])).value;
            stack != [] && stack[|stack| - 1] == kind
  {
    var a, b := marks[..q + 1], marks[q + 1..n];
    assert marks[..n] == a + b && a[..q] == marks[..q];
    TokensAppend(a, b);
    ExtendableIffRead(Tokens(marks[..n]));
    ReadAppend([], Tokens(a), Tokens(b));
    ReadAppend([], Tokens(marks[..q]), [Open(kind)]);
    var f: Forest<K> :| Word(f) == Tokens(b);
    ReadWord(Read([], Tokens(a)).value, f);
  }

  /** What is innermost open is unique. */
  lemma InnermostOpenUnique<K(!new)>(marks: Marks<K>, q: nat, q': nat, n: nat, k: K, k': K)
    requires InnermostOpen(marks, q, n, k) && InnermostOpen(marks, q', n, k')
    ensures q == q' && k == k'
  {
    if q != q' {
      var (lo, hi) := (if q < q' then q else q', if q < q' then q' else q);
      var kind := if q < q' then k' else k;
      var outer, inner := marks[lo + 1..n], marks[hi + 1..n];
      assert outer[hi - lo..] == inner;
      NestedIffRead(Tokens(outer));
      NestedIsExtendable(Tokens(outer));
      assert outer[..|outer|] == outer;
      assert outer[hi - lo - 1 + 1..|outer|] == inner;
      ReadThrough(outer, hi - lo - 1, |outer|, kind);
      assert false;
    }
  }

  /** A text has at most one fault, and it has none exactly when it is well nested. */
  lemma {:induction false} FaultExcludesNested<K(!new)>(marks: Marks<K>, fault: Fault<K>)
    requires IsFault(marks, fault)
    ensures !Nested(Tokens(marks))
    ensures !fault.Unclosed? ==> !Extendable(Tokens(marks))
  {
    var w := Tokens(marks);
    assert marks[..|marks|] == marks;
    if fault.Unclosed? {
      ReadThrough(marks, fault.at, |marks|, fault.kind);
      NestedIffRead(w);
    } else {
      CloseFaultIsFirstDead(marks, fault);
      assert !Extendable(Tokens(marks[..|marks|]));
      NestedIsExtendable(w);
    }
  }

  lemma FaultUnique<K(!new)>(marks: Marks<K>, f: Fault<K>, g: Fault<K>)
    requires IsFault(marks, f) && IsFault(marks, g)
    ensures f == g
  {
    FaultExcludesNested(marks, f);
    FaultExcludesNested(marks, g);
    if f.Unclosed? {
      InnermostOpenUnique(marks, f.at, g.at, |marks|, f.kind, g.kind);
    } else {
      CloseFaultIsFirstDead(marks, f);
      CloseFaultIsFirstDead(marks, g);
      assert f.at == g.at by {
        assert Extendable(Tokens(marks[..f.at])) && Extendable(Tokens(marks[..g.at]));
      }
      var p := f.at;
      if f.MismatchedClose? && g.MismatchedClose? {
        var q :| InnermostOpen(marks, q, p, f.expected);
        var q' :| InnermostOpen(marks, q', p, g.expected);
        InnermostOpenUnique(marks, q, q', p, f.expected, g.expected);
      } else if f.MismatchedClose? || g.MismatchedClose? {
        var x := if f.MismatchedClose? then f.expected else g.expected;
        var q :| InnermostOpen(marks, q, p, x);
        ReadThrough(marks, q, p, x);
        NestedIffRead(Tokens(marks[..p]));
      }
    }
  }
}
