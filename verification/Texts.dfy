/** Words and their dictionary order, and texts with their encodings: as bytes (UTF-8), which
    the server compares, and as 16-bit units (UTF-16), which the browser compares. */
module Texts {

  type Word = seq<nat>

  /** A character: a code point that is no surrogate. */
  type Scalar = c: nat | IsScalar(c) witness 0

  type Text = seq<Scalar>

  predicate IsScalar(c: nat) { c < 0xD800 || 0xE000 <= c < 0x110000 }

  /* ---- Dictionary order ---- */

  predicate Less(a: Word, b: Word) {
    b != [] && (a == [] || a[0] < b[0] || (a[0] == b[0] && Less(a[1..], b[1..])))
  }

  lemma {:induction false} LessIsTotal(a: Word, b: Word)
    ensures a != b ==> Less(a, b) || Less(b, a)
  {
    if a != [] && b != [] && a[0] == b[0] {
      LessIsTotal(a[1..], b[1..]);
      if a[1..] == b[1..] {
        assert a == [a[0]] + a[1..] && b == [b[0]] + b[1..];
      }
    }
  }

  lemma {:induction false} LessIsAsymmetric(a: Word, b: Word)
    ensures !(Less(a, b) && Less(b, a))
  {
    if a != [] && b != [] && a[0] == b[0] {
      LessIsAsymmetric(a[1..], b[1..]);
    }
  }

  lemma {:induction false} LessIsTransitive(a: Word, b: Word, c: Word)
    requires Less(a, b) && Less(b, c)
    ensures Less(a, c)
  {
    if a != [] && a[0] == b[0] && b[0] == c[0] {
      LessIsTransitive(a[1..], b[1..], c[1..]);
    }
  }

  /** Neither is the beginning of the other. */
  predicate Apart(u: Word, v: Word) { u != [] && v != [] && (u[0] != v[0] || Apart(u[1..], v[1..])) }

  lemma {:induction false} ApartDecides(u: Word, v: Word, x: Word, y: Word)
    requires Apart(u, v)
    ensures Less(u + x, v + y) <==> Less(u, v)
  {
    assert (u + x)[1..] == u[1..] + x && (v + y)[1..] == v[1..] + y;
    if u[0] == v[0] {
      ApartDecides(u[1..], v[1..], x, y);
    }
  }

  lemma {:induction false} SameFront(u: Word, x: Word, y: Word)
    ensures Less(u + x, u + y) <==> Less(x, y)
  {
    if u == [] {
      assert u + x == x && u + y == y;
    } else {
      assert (u + x)[1..] == u[1..] + x && (u + y)[1..] == u[1..] + y;
      SameFront(u[1..], x, y);
    }
  }

  /* ---- Single characters ---- */

  function Utf8One(c: Scalar): (w: Word)
    ensures w != []
  {
    if c < 0x80 then [c as nat]
    else if c < 0x800 then [0xC0 + c / 0x40, 0x80 + c % 0x40]
    else if c < 0x10000 then [0xE0 + c / 0x40 / 0x40, 0x80 + c / 0x40 % 0x40, 0x80 + c % 0x40]
    else [0xF0 + c / 0x40 / 0x40 / 0x40, 0x80 + c / 0x40 / 0x40 % 0x40, 0x80 + c / 0x40 % 0x40, 0x80 + c % 0x40]
  }

  function Utf16One(c: Scalar): (w: Word)
    ensures w != []
  {
    if c < 0x10000 then [c as nat]
    else [0xD800 + (c - 0x10000) / 0x400, 0xDC00 + (c - 0x10000) % 0x400]
  }

  /** The words part at position `k`. */
  lemma {:induction false} PartAt(u: Word, v: Word, k: nat)
    requires k < |u| && k < |v| && u[k] != v[k] && forall i :: 0 <= i < k ==> u[i] == v[i]
    ensures Apart(u, v) && (Less(u, v) <==> u[k] < v[k])
    decreases k
  {
    if k > 0 {
      PartAt(u[1..], v[1..], k - 1);
    }
  }

  /** Two characters with as many bytes part at the first digit in which they differ. */
  lemma Utf8OneSameLength(c: Scalar, d: Scalar)
    requires c < d && |Utf8One(c)| == |Utf8One(d)|
    ensures Apart(Utf8One(c), Utf8One(d)) && Less(Utf8One(c), Utf8One(d))
  {
    var u, v := Utf8One(c), Utf8One(d);
    var k := if u[0] != v[0] then 0 else if u[1] != v[1] then 1 else if u[2] != v[2] then 2 else 3;
    PartAt(u, v, k);
  }

  lemma Utf8OneKeepsOrder(c: Scalar, d: Scalar)
    requires c < d
    ensures Apart(Utf8One(c), Utf8One(d)) && Less(Utf8One(c), Utf8One(d))
  {
    if |Utf8One(c)| == |Utf8One(d)| {
      Utf8OneSameLength(c, d);
    } else {
      PartAt(Utf8One(c), Utf8One(d), 0);
    }
  }

  /** One of the characters needs two units, and the other lies behind the surrogates. */
  predicate Crossed(c: Scalar, d: Scalar) {
    (c >= 0x10000 && 0xE000 <= d < 0x10000) || (d >= 0x10000 && 0xE000 <= c < 0x10000)
  }

  lemma Utf16OneOrder(c: Scalar, d: Scalar)
    requires c != d
    ensures Apart(Utf16One(c), Utf16One(d))
    ensures Less(Utf16One(c), Utf16One(d)) <==> if Crossed(c, d) then d < c else c < d
  {
    var u, v := Utf16One(c), Utf16One(d);
    if c >= 0x10000 && d >= 0x10000 {
      PartAt(u, v, if u[0] != v[0] then 0 else 1);
    } else {
      assert IsScalar(c) && IsScalar(d);
      PartAt(u, v, 0);
    }
  }

  /* ---- Texts ---- */

  function Utf8(t: Text): Word { if t == [] then [] else Utf8One(t[0]) + Utf8(t[1..]) }

  function Utf16(t: Text): Word { if t == [] then [] else Utf16One(t[0]) + Utf16(t[1..]) }

  /** The first difference of the texts is between a character beyond U+FFFF and one from
      U+E000 to U+FFFF. */
  predicate Parted(a: Text, b: Text) {
    a != [] && b != [] && if a[0] == b[0] then Parted(a[1..], b[1..]) else Crossed(a[0], b[0])
  }

  /** Bytes are in the order of the characters. */
  lemma {:induction false} Utf8KeepsOrder(a: Text, b: Text)
    ensures Less(Utf8(a), Utf8(b)) <==> Less(a, b)
  {
    if a != [] && b != [] {
      if a[0] == b[0] {
        Utf8KeepsOrder(a[1..], b[1..]);
        SameFront(Utf8One(a[0]), Utf8(a[1..]), Utf8(b[1..]));
      } else if a[0] < b[0] {
        Utf8OneKeepsOrder(a[0], b[0]);
        ApartDecides(Utf8One(a[0]), Utf8One(b[0]), Utf8(a[1..]), Utf8(b[1..]));
      } else {
        Utf8OneKeepsOrder(b[0], a[0]);
        ApartDecides(Utf8One(b[0]), Utf8One(a[0]), Utf8(b[1..]), Utf8(a[1..]));
        LessIsAsymmetric(Utf8(a), Utf8(b));
      }
    }
  }

  /** Units are in the order of the characters exactly unless the texts are parted. */
  lemma {:induction false} Utf16Order(a: Text, b: Text)
    ensures Less(Utf16(a), Utf16(b)) <==> if Parted(a, b) then Less(b, a) else Less(a, b)
  {
    if a != [] && b != [] {
      if a[0] == b[0] {
        Utf16Order(a[1..], b[1..]);
        SameFront(Utf16One(a[0]), Utf16(a[1..]), Utf16(b[1..]));
      } else {
        Utf16OneOrder(a[0], b[0]);
        ApartDecides(Utf16One(a[0]), Utf16One(b[0]), Utf16(a[1..]), Utf16(b[1..]));
      }
    }
  }

  /** Different texts have different bytes. */
  lemma {:induction false} Utf8IsInjective(a: Text, b: Text)
    requires Utf8(a) == Utf8(b)
    ensures a == b
  {
    Utf8KeepsOrder(a, b);
    Utf8KeepsOrder(b, a);
    LessIsAsymmetric(Utf8(a), Utf8(b));
    LessIsTotal(a, b);
  }

  /** Different texts have different units. */
  lemma {:induction false} Utf16IsInjective(a: Text, b: Text)
    requires Utf16(a) == Utf16(b)
    ensures a == b
  {
    Utf16Order(a, b);
    Utf16Order(b, a);
    PartedIsSymmetric(a, b);
    LessIsAsymmetric(Utf16(a), Utf16(b));
    LessIsTotal(a, b);
  }

  lemma {:induction false} NotPartedFromSelf(a: Text)
    ensures !Parted(a, a)
  {
    if a != [] {
      NotPartedFromSelf(a[1..]);
    }
  }

  lemma {:induction false} PartedIsSymmetric(a: Text, b: Text)
    ensures Parted(a, b) == Parted(b, a)
  {
    if a != [] && b != [] && a[0] == b[0] {
      PartedIsSymmetric(a[1..], b[1..]);
    }
  }

  predicate IsAscii(t: Text) { forall i :: 0 <= i < |t| ==> t[i] < 0x80 }

  lemma {:induction false} AsciiIsNotParted(a: Text, b: Text)
    requires IsAscii(a)
    ensures !Parted(a, b)
  {
    if a != [] && b != [] && a[0] == b[0] {
      AsciiIsNotParted(a[1..], b[1..]);
    }
  }

  /** No text without the NUL character has a NUL byte. */
  lemma {:induction false} Utf8NulFree(t: Text)
    ensures 0 in Utf8(t) <==> 0 in t
  {
    if t != [] {
      Utf8NulFree(t[1..]);
      assert t == [t[0]] + t[1..];
    }
  }
}
