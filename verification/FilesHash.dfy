/** The bytes that are hashed for a snapshot, as the server feeds them to the hash
    (internal/store/version.go) and as the browser lays them out in one buffer
    (frontend/src/workspace.ts).  The server sorts by the bytes of the paths, the browser by
    their 16-bit units. */
module FilesHash {
  import opened Texts

  /** A file as the server holds it: bytes. */
  datatype Entry = Entry(path: Word, content: Word)

  /** A file as the browser holds it: texts. */
  datatype TextFile = TextFile(path: Text, content: Text)

  function PathOf(e: Entry): Word { e.path }

  function UnitsOf(f: TextFile): Word { Utf16(f.path) }

  /* ---- Sorting ---- */

  predicate DistinctKeys<T>(files: seq<T>, key: T -> Word) {
    forall i, j :: 0 <= i < j < |files| ==> key(files[i]) != key(files[j])
  }

  predicate Sorted<T>(files: seq<T>, key: T -> Word) {
    forall i, j :: 0 <= i < j < |files| ==> Less(key(files[i]), key(files[j]))
  }

  function Insert<T>(e: T, files: seq<T>, key: T -> Word): seq<T> {
    if files == [] then [e]
    else if Less(key(e), key(files[0])) then [e] + files
    else [files[0]] + Insert(e, files[1..], key)
  }

  /** A copy in the order of the keys. */
  function SortedCopy<T>(files: seq<T>, key: T -> Word): seq<T> {
    if files == [] then [] else Insert(files[0], SortedCopy(files[1..], key), key)
  }

  lemma {:induction false} InsertKeeps<T>(e: T, files: seq<T>, key: T -> Word)
    ensures multiset(Insert(e, files, key)) == multiset(files) + multiset{e}
  {
    if files != [] {
      assert files == [files[0]] + files[1..];
      InsertKeeps(e, files[1..], key);
    }
  }

  lemma {:induction false} InsertSorts<T>(e: T, files: seq<T>, key: T -> Word)
    requires Sorted(files, key) && forall i :: 0 <= i < |files| ==> key(files[i]) != key(e)
    ensures Sorted(Insert(e, files, key), key)
  {
    if files != [] {
      var rest := Insert(e, files[1..], key);
      if Less(key(e), key(files[0])) {
        forall j | 1 <= j < |files| ensures Less(key(e), key(files[j])) {
          LessIsTransitive(key(e), key(files[0]), key(files[j]));
        }
      } else {
        LessIsTotal(key(e), key(files[0]));
        InsertSorts(e, files[1..], key);
        InsertKeeps(e, files[1..], key);
        forall j | 0 <= j < |rest| ensures Less(key(files[0]), key(rest[j])) {
          assert rest[j] in multiset(rest);
          assert rest[j] == e || rest[j] in files[1..];
        }
      }
    }
  }

  lemma {:induction false} SortedCopyKeeps<T>(files: seq<T>, key: T -> Word)
    ensures multiset(SortedCopy(files, key)) == multiset(files)
  {
    if files != [] {
      assert files == [files[0]] + files[1..];
      SortedCopyKeeps(files[1..], key);
      InsertKeeps(files[0], SortedCopy(files[1..], key), key);
    }
  }

  lemma {:induction false} SortedCopyIsSorted<T>(files: seq<T>, key: T -> Word)
    requires DistinctKeys(files, key)
    ensures Sorted(SortedCopy(files, key), key) && multiset(SortedCopy(files, key)) == multiset(files)
  {
    SortedCopyKeeps(files, key);
    if files != [] {
      var rest := SortedCopy(files[1..], key);
      SortedCopyIsSorted(files[1..], key);
      forall i | 0 <= i < |rest| ensures key(rest[i]) != key(files[0]) {
        assert rest[i] in multiset(files[1..]);
      }
      InsertSorts(files[0], rest, key);
    }
  }

  lemma FirstIsLeast<T>(a: seq<T>, b: seq<T>, key: T -> Word)
    requires Sorted(a, key) && Sorted(b, key) && multiset(a) == multiset(b) && a != []
    ensures b != [] && a[0] == b[0]
  {
    assert a[0] in multiset(b);
    assert b[0] in multiset(a);
    LessIsAsymmetric(key(a[0]), key(b[0]));
  }

  lemma RestAgrees<T>(a: seq<T>, b: seq<T>)
    requires a != [] && b != [] && a[0] == b[0] && multiset(a) == multiset(b)
    ensures multiset(a[1..]) == multiset(b[1..])
  {
    assert a == [a[0]] + a[1..];
    assert b == [b[0]] + b[1..];
    assert multiset(a[1..]) == multiset(a) - multiset{a[0]};
    assert multiset(b[1..]) == multiset(b) - multiset{b[0]};
  }

  /** There is only one sorted order, whatever the sorting algorithm. */
  lemma {:induction false} SortedIsUnique<T>(a: seq<T>, b: seq<T>, key: T -> Word)
    requires Sorted(a, key) && Sorted(b, key) && multiset(a) == multiset(b)
    ensures a == b
  {
    if a == [] {
      assert |multiset(b)| == 0;
    } else {
      FirstIsLeast(a, b, key);
      RestAgrees(a, b);
      SortedIsUnique(a[1..], b[1..], key);
      assert a == [a[0]] + a[1..] && b == [b[0]] + b[1..];
    }
  }

  /* ---- The two sides ---- */

  const NUL: nat := 0

  /** Path and content of each file in turn, each closed by a NUL byte. */
  function Bytes(files: seq<Entry>): Word {
    if files == [] then []
    else
      var last := |files| - 1;
      Bytes(files[..last]) + files[last].path + [NUL] + files[last].content + [NUL]
  }

  /** What is hashed for a snapshot. */
  function Stream(files: seq<Entry>): Word { Bytes(SortedCopy(files, PathOf)) }

  lemma {:induction false} SortedIsKept(files: seq<Entry>)
    requires Sorted(files, PathOf)
    ensures SortedCopy(files, PathOf) == files
  {
    forall i, j | 0 <= i < j < |files| ensures PathOf(files[i]) != PathOf(files[j]) {
      LessIsAsymmetric(PathOf(files[i]), PathOf(files[j]));
    }
    SortedCopyIsSorted(files, PathOf);
    SortedIsUnique(SortedCopy(files, PathOf), files, PathOf);
  }

  /** Of files in the order of their paths each adds its path, a NUL byte, its content and a NUL
      byte to the end. */
  lemma {:induction false} StreamInOrder(files: seq<Entry>, f: Entry)
    requires Sorted(files + [f], PathOf)
    ensures Stream(files + [f]) == Stream(files) + f.path + [0] + f.content + [0]
  {
    assert (files + [f])[..|files|] == files;
    assert Sorted(files, PathOf) by {
      forall i, j | 0 <= i < j < |files| ensures Less(PathOf(files[i]), PathOf(files[j])) {
        assert (files + [f])[i] == files[i] && (files + [f])[j] == files[j];
      }
    }
    SortedIsKept(files);
    SortedIsKept(files + [f]);
  }

  /** The server's side: the hash is fed piece by piece. */
  method HashedByServer(files: seq<Entry>) returns (fed: Word)
    ensures fed == Stream(files)
  {
    var sorted := SortedCopy(files, PathOf);
    fed := [];
    for k := 0 to |sorted|
      invariant fed == Bytes(sorted[..k])
    {
      assert sorted[..k + 1][..k] == sorted[..k];
      fed := fed + sorted[k].path;
      fed := fed + [NUL];
      fed := fed + sorted[k].content;
      fed := fed + [NUL];
    }
    assert sorted[..|sorted|] == sorted;
  }

  function Chunks(files: seq<Entry>): seq<Word> {
    if files == [] then []
    else
      var last := |files| - 1;
      Chunks(files[..last]) + [files[last].path, [NUL], files[last].content, [NUL]]
  }

  function Joined(chunks: seq<Word>): Word {
    if chunks == [] then [] else Joined(chunks[..|chunks| - 1]) + chunks[|chunks| - 1]
  }

  lemma {:induction false} JoinedOne(chunks: seq<Word>, c: Word)
    ensures Joined(chunks + [c]) == Joined(chunks) + c
  {
    assert (chunks + [c])[..|chunks|] == chunks;
  }

  lemma {:induction false} JoinedFour(chunks: seq<Word>, a: Word, b: Word, c: Word, d: Word)
    ensures Joined(chunks + [a, b, c, d]) == Joined(chunks) + a + b + c + d
  {
    JoinedOne(chunks, a);
    JoinedOne(chunks + [a], b);
    JoinedOne(chunks + [a] + [b], c);
    JoinedOne(chunks + [a] + [b] + [c], d);
    assert chunks + [a, b, c, d] == chunks + [a] + [b] + [c] + [d];
  }

  lemma {:induction false} ChunksAreBytes(files: seq<Entry>)
    ensures Joined(Chunks(files)) == Bytes(files)
  {
    if files != [] {
      var last := |files| - 1;
      ChunksAreBytes(files[..last]);
      JoinedFour(Chunks(files[..last]), files[last].path, [NUL], files[last].content, [NUL]);
    }
  }

  lemma {:induction false} JoinedGrows(chunks: seq<Word>, k: nat)
    requires k <= |chunks|
    ensures |Joined(chunks[..k])| <= |Joined(chunks)|
    ensures k < |chunks| ==> |Joined(chunks[..k])| + |chunks[k]| <= |Joined(chunks)|
    decreases |chunks| - k
  {
    if k < |chunks| {
      assert chunks[..k + 1][..k] == chunks[..k];
      JoinedGrows(chunks, k + 1);
    } else {
      assert chunks[..k] == chunks;
    }
  }

  function EncodedFile(f: TextFile): Entry { Entry(Utf8(f.path), Utf8(f.content)) }

  /** The files in bytes, in the same order. */
  function Encoded(files: seq<TextFile>): seq<Entry> { seq(|files|, i requires 0 <= i < |files| => EncodedFile(files[i])) }

  /** What the browser hashes: it sorts by units and then encodes. */
  function BrowserStream(files: seq<TextFile>): Word { Bytes(Encoded(SortedCopy(files, UnitsOf))) }

  /** The browser's side: the chunks are laid out in one buffer at a running offset. */
  method HashedByBrowser(files: seq<TextFile>) returns (payload: array<nat>)
    ensures fresh(payload) && payload[..] == BrowserStream(files)
  {
    hide Joined, Bytes;
    var entries := Encoded(SortedCopy(files, UnitsOf));
    var chunks := Chunks(entries);
    ChunksAreBytes(entries);
    JoinedNone(chunks);
    var length := 0;
    for k := 0 to |chunks|
      invariant length == |Joined(chunks[..k])|
    {
      JoinedNext(chunks, k);
      length := length + |chunks[k]|;
    }
    assert chunks[..|chunks|] == chunks;
    payload := new nat[length](_ => NUL);
    var offset := 0;
    for k := 0 to |chunks|
      invariant offset == |Joined(chunks[..k])| <= payload.Length
      invariant payload[..offset] == Joined(chunks[..k])
    {
      JoinedNext(chunks, k);
      JoinedGrows(chunks, k);
      Append(payload, Joined(chunks[..k]), chunks[k], offset);
      offset := offset + |chunks[k]|;
    }
    assert payload[..] == payload[..offset];
  }

  lemma JoinedNone(chunks: seq<Word>)
    ensures Joined(chunks[..0]) == []
  {
  }

  lemma JoinedNext(chunks: seq<Word>, k: nat)
    requires k < |chunks|
    ensures Joined(chunks[..k + 1]) == Joined(chunks[..k]) + chunks[k]
  {
    assert chunks[..k + 1][..k] == chunks[..k];
  }

  /** Writes a chunk behind what the buffer holds already. */
  method Append(a: array<nat>, ghost held: Word, chunk: Word, offset: nat)
    requires offset + |chunk| <= a.Length && a[..offset] == held
    modifies a
    ensures a[..offset + |chunk|] == held + chunk
  {
    Set(a, chunk, offset);
    assert a[..offset + |chunk|] == a[..offset] + a[offset..offset + |chunk|];
  }

  /** Writes a chunk into the buffer at an offset. */
  method Set(a: array<nat>, chunk: Word, offset: nat)
    requires offset + |chunk| <= a.Length
    modifies a
    ensures a[offset..offset + |chunk|] == chunk
    ensures a[..offset] == old(a[..offset])
  {
    for k := 0 to |chunk|
      invariant forall j :: 0 <= j < k ==> a[offset + j] == chunk[j]
      invariant forall j :: 0 <= j < offset ==> a[j] == old(a[j])
    {
      a[offset + k] := chunk[k];
    }
  }

  /* ---- What the stream stands for ---- */

  /** The order in which the files are listed does not matter. */
  lemma OrderDoesNotMatter(a: seq<Entry>, b: seq<Entry>)
    requires DistinctKeys(a, PathOf) && DistinctKeys(b, PathOf) && multiset(a) == multiset(b)
    ensures Stream(a) == Stream(b)
  {
    SortedCopyIsSorted(a, PathOf);
    SortedCopyIsSorted(b, PathOf);
    SortedIsUnique(SortedCopy(a, PathOf), SortedCopy(b, PathOf), PathOf);
  }

  predicate NulFree(s: Word) { NUL !in s }

  predicate AllNulFree(files: seq<Entry>) {
    forall i :: 0 <= i < |files| ==> NulFree(files[i].path) && NulFree(files[i].content)
  }

  lemma {:induction false} BytesNext(files: seq<Entry>)
    requires files != []
    ensures var last := |files| - 1;
            Bytes(files) == Bytes(files[..last]) + (files[last].path + [NUL] + files[last].content + [NUL])
  {
    var last := |files| - 1;
    Regroup(Bytes(files[..last]), files[last].path, [NUL], files[last].content);
  }

  lemma Regroup(a: Word, b: Word, c: Word, d: Word)
    ensures a + b + c + d + c == a + (b + c + d + c)
  {
  }

  lemma Group(path: Word, content: Word, x: Word, y: Word)
    ensures path + [NUL] + (content + [NUL] + x) + y == path + [NUL] + (content + [NUL] + (x + y))
    ensures path + [NUL] + (content + [NUL] + []) == path + [NUL] + content + [NUL]
  {
  }

  lemma {:induction false} BytesFromFront(e: Entry, files: seq<Entry>)
    ensures Bytes([e] + files) == e.path + [NUL] + (e.content + [NUL] + Bytes(files))
  {
    if files == [] {
      assert [e] + files == [e] && [e][..0] == [];
      Group(e.path, e.content, [], []);
    } else {
      var last := |files| - 1;
      BytesNext([e] + files);
      assert ([e] + files)[..last + 1] == [e] + files[..last];
      BytesFromFront(e, files[..last]);
      BytesNext(files);
      Group(e.path, e.content, Bytes(files[..last]), files[last].path + [NUL] + files[last].content + [NUL]);
    }
  }

  /** The first NUL byte separates the same way on both sides. */
  lemma SplitAtNul(x: Word, r: Word, y: Word, q: Word)
    requires NulFree(x) && NulFree(y) && x + [NUL] + r == y + [NUL] + q
    ensures x == y && r == q
  {
    var s := x + [NUL] + r;
    assert s[|x|] == NUL && s[|y|] == NUL;
    assert forall i :: 0 <= i < |x| ==> s[i] == x[i] != NUL;
    assert forall i :: 0 <= i < |y| ==> s[i] == y[i] != NUL;
    assert x == s[..|x|] && y == s[..|y|] && r == s[|x| + 1..] && q == s[|y| + 1..];
  }

  lemma {:induction false} BytesAreInjective(a: seq<Entry>, b: seq<Entry>)
    requires AllNulFree(a) && AllNulFree(b) && Bytes(a) == Bytes(b)
    ensures a == b
  {
    if a != [] {
      assert a == [a[0]] + a[1..];
      BytesFromFront(a[0], a[1..]);
    }
    if b != [] {
      assert b == [b[0]] + b[1..];
      BytesFromFront(b[0], b[1..]);
    }
    if a != [] && b != [] {
      SplitAtNul(a[0].path, a[0].content + [NUL] + Bytes(a[1..]), b[0].path, b[0].content + [NUL] + Bytes(b[1..]));
      SplitAtNul(a[0].content, Bytes(a[1..]), b[0].content, Bytes(b[1..]));
      BytesAreInjective(a[1..], b[1..]);
    }
  }

  /** Snapshots without NUL bytes have the same stream only if they have the same files. */
  lemma StreamIsInjective(a: seq<Entry>, b: seq<Entry>)
    requires DistinctKeys(a, PathOf) && DistinctKeys(b, PathOf) && AllNulFree(a) && AllNulFree(b)
    ensures Stream(a) == Stream(b) <==> multiset(a) == multiset(b)
  {
    if multiset(a) == multiset(b) {
      OrderDoesNotMatter(a, b);
    }
    if Stream(a) == Stream(b) {
      SortedCopyKeeps(a, PathOf);
      SortedCopyKeeps(b, PathOf);
      SortedNulFree(a);
      SortedNulFree(b);
      BytesAreInjective(SortedCopy(a, PathOf), SortedCopy(b, PathOf));
    }
  }

  lemma {:induction false} SortedNulFree(files: seq<Entry>)
    requires AllNulFree(files)
    ensures AllNulFree(SortedCopy(files, PathOf))
  {
    SortedCopyKeeps(files, PathOf);
    var sorted := SortedCopy(files, PathOf);
    forall i | 0 <= i < |sorted| ensures NulFree(sorted[i].path) && NulFree(sorted[i].content) {
      assert sorted[i] in multiset(files);
    }
  }

  /** With NUL bytes in a content, one file may pass for two. */
  lemma NulFoolsTheStream()
    ensures Stream([Entry([97], [98, 0, 99, 0, 100])]) == Stream([Entry([97], [98]), Entry([99], [100])])
  {
    var one, two := [Entry([97], [98, 0, 99, 0, 100])], [Entry([97], [98]), Entry([99], [100])];
    assert SortedCopy(two[1..], PathOf) == [two[1]];
    assert Insert(two[0], [two[1]], PathOf) == two;
    assert two[..1] == [two[0]] && two[..1][..0] == [];
    assert Bytes(one) == [97] + [NUL] + [98, 0, 99, 0, 100] + [NUL];
    assert Bytes(two[..1]) == [97] + [NUL] + [98] + [NUL];
    assert Bytes(two) == Bytes(two[..1]) + [99] + [NUL] + [100] + [NUL];
  }

  /* ---- When the two sides agree ---- */

  predicate DistinctTexts(files: seq<TextFile>) {
    forall i, j :: 0 <= i < j < |files| ==> files[i].path != files[j].path
  }

  predicate TextsNulFree(files: seq<TextFile>) {
    forall i :: 0 <= i < |files| ==> 0 !in files[i].path && 0 !in files[i].content
  }

  predicate HasParted(files: seq<TextFile>) {
    exists i, j :: 0 <= i < |files| && 0 <= j < |files| && Parted(files[i].path, files[j].path)
  }

  lemma {:induction false} EncodedInserts(f: TextFile, files: seq<TextFile>)
    ensures Encoded([f] + files) == [EncodedFile(f)] + Encoded(files)
  {
  }

  lemma {:induction false} EncodedCount(files: seq<TextFile>, a: seq<TextFile>)
    requires multiset(files) == multiset(a)
    ensures multiset(Encoded(files)) == multiset(Encoded(a))
    decreases |files|
  {
    if files == [] {
      assert |multiset(a)| == 0;
    } else {
      assert files[0] in multiset(a);
      var k :| 0 <= k < |a| && a[k] == files[0];
      TakenOut(a, k);
      assert files == [files[0]] + files[1..];
      EncodedInserts(files[0], files[1..]);
      assert multiset(files[1..]) == multiset(files) - multiset{files[0]} == multiset(a[..k] + a[k + 1..]);
      EncodedCount(files[1..], a[..k] + a[k + 1..]);
      EncodedWithout(a, k);
    }
  }

  lemma TakenOut<T>(a: seq<T>, k: nat)
    requires k < |a|
    ensures multiset(a) == multiset{a[k]} + multiset(a[..k] + a[k + 1..])
  {
    assert a == a[..k] + [a[k]] + a[k + 1..];
  }

  lemma EncodedWithout(a: seq<TextFile>, k: nat)
    requires k < |a|
    ensures multiset(Encoded(a)) == multiset{EncodedFile(a[k])} + multiset(Encoded(a[..k] + a[k + 1..]))
  {
    TakenOut(Encoded(a), k);
    assert Encoded(a)[..k] + Encoded(a)[k + 1..] == Encoded(a[..k] + a[k + 1..]);
  }

  lemma EncodedKeys(files: seq<TextFile>)
    requires DistinctTexts(files)
    ensures DistinctKeys(Encoded(files), PathOf) && DistinctKeys(files, UnitsOf)
  {
    forall i, j | 0 <= i < j < |files|
      ensures Utf8(files[i].path) != Utf8(files[j].path) && Utf16(files[i].path) != Utf16(files[j].path)
    {
      if Utf8(files[i].path) == Utf8(files[j].path) {
        Utf8IsInjective(files[i].path, files[j].path);
      }
      if Utf16(files[i].path) == Utf16(files[j].path) {
        Utf16IsInjective(files[i].path, files[j].path);
      }
    }
  }

  /** Sorted by units, the files are sorted by bytes too exactly if no two paths are parted. */
  lemma SortedBothWays(files: seq<TextFile>)
    requires Sorted(files, UnitsOf)
    ensures Sorted(Encoded(files), PathOf) <==> !HasParted(files)
  {
    forall i, j | 0 <= i < j < |files|
      ensures Less(Utf8(files[i].path), Utf8(files[j].path)) <==> !Parted(files[i].path, files[j].path)
    {
      var p, q := files[i].path, files[j].path;
      assert Less(UnitsOf(files[i]), UnitsOf(files[j]));
      Utf16Order(p, q);
      Utf8KeepsOrder(p, q);
      LessIsAsymmetric(p, q);
    }
    if HasParted(files) {
      var i, j :| 0 <= i < |files| && 0 <= j < |files| && Parted(files[i].path, files[j].path);
      PartedIsSymmetric(files[i].path, files[j].path);
      NotPartedFromSelf(files[i].path);
      var lo, hi := if i < j then i else j, if i < j then j else i;
      assert !Less(PathOf(Encoded(files)[lo]), PathOf(Encoded(files)[hi]));
    }
  }

  lemma PartedListing(a: seq<TextFile>, b: seq<TextFile>)
    requires multiset(a) == multiset(b) && HasParted(a)
    ensures HasParted(b)
  {
    var i, j :| 0 <= i < |a| && 0 <= j < |a| && Parted(a[i].path, a[j].path);
    assert a[i] in multiset(b) && a[j] in multiset(b);
    var k :| 0 <= k < |b| && b[k] == a[i];
    var l :| 0 <= l < |b| && b[l] == a[j];
  }

  lemma EncodedNulFree(files: seq<TextFile>)
    requires TextsNulFree(files)
    ensures AllNulFree(Encoded(files))
  {
    forall i | 0 <= i < |files| ensures NulFree(Utf8(files[i].path)) && NulFree(Utf8(files[i].content)) {
      Utf8NulFree(files[i].path);
      Utf8NulFree(files[i].content);
    }
  }

  /** Server and browser hash the same bytes exactly if no two paths are parted, that is
      unless at the first difference of two paths one has a character beyond U+FFFF and the
      other one from U+E000 to U+FFFF. */
  lemma SidesAgreeExactly(files: seq<TextFile>)
    requires DistinctTexts(files) && TextsNulFree(files)
    ensures BrowserStream(files) == Stream(Encoded(files)) <==> !HasParted(files)
  {
    var sorted, bytes := SortedCopy(files, UnitsOf), SortedCopy(Encoded(files), PathOf);
    EncodedKeys(files);
    SortedCopyIsSorted(files, UnitsOf);
    SortedCopyIsSorted(Encoded(files), PathOf);
    EncodedCount(sorted, files);
    SortedBothWays(sorted);
    if HasParted(files) {
      PartedListing(files, sorted);
    }
    if HasParted(sorted) {
      PartedListing(sorted, files);
    } else {
      SortedIsUnique(Encoded(sorted), bytes, PathOf);
    }
    EncodedNulFree(files);
    SortedNulFree(Encoded(files));
    AllNulFreeListing(Encoded(files), Encoded(sorted));
    if Bytes(Encoded(sorted)) == Bytes(bytes) {
      BytesAreInjective(Encoded(sorted), bytes);
    }
  }

  lemma AllNulFreeListing(a: seq<Entry>, b: seq<Entry>)
    requires AllNulFree(a) && multiset(a) == multiset(b)
    ensures AllNulFree(b)
  {
    forall i | 0 <= i < |b| ensures NulFree(b[i].path) && NulFree(b[i].content) {
      assert b[i] in multiset(a);
    }
  }

  /** They do not for a file U+E000 beside a file U+10000. */
  lemma SidesDisagree(content: Text)
    requires 0 !in content
    ensures var files := [TextFile([0xE000], content), TextFile([0x10000], content)];
            DistinctTexts(files) && BrowserStream(files) != Stream(Encoded(files))
  {
    var files := [TextFile([0xE000], content), TextFile([0x10000], content)];
    assert Parted(files[0].path, files[1].path);
    SidesAgreeExactly(files);
  }

  /** With paths in ASCII they always do, NUL bytes or not. */
  lemma SidesAgreeOnAscii(files: seq<TextFile>)
    requires DistinctTexts(files) && forall i :: 0 <= i < |files| ==> IsAscii(files[i].path)
    ensures BrowserStream(files) == Stream(Encoded(files))
  {
    var sorted := SortedCopy(files, UnitsOf);
    EncodedKeys(files);
    SortedCopyIsSorted(files, UnitsOf);
    SortedCopyIsSorted(Encoded(files), PathOf);
    EncodedCount(sorted, files);
    SortedBothWays(sorted);
    if HasParted(sorted) {
      PartedListing(sorted, files);
      var i, j :| 0 <= i < |files| && 0 <= j < |files| && Parted(files[i].path, files[j].path);
      AsciiIsNotParted(files[i].path, files[j].path);
    }
    SortedIsUnique(Encoded(sorted), SortedCopy(Encoded(files), PathOf), PathOf);
  }
}
