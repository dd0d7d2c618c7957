/** File lists as the source builds them: a snapshot from the scaffold (internal/agent/
    scaffold.go) and the override of a manual edit (internal/store/files.go). */
module Snapshots {
  import opened Prelude
  import opened Tables
  import opened Operations
  import opened Systems

  /** The scaffold with the writable file replaced. */
  method BuildFilesMap(scaffold: seq<Snapshot>, content: string) returns (files: seq<Snapshot>)
    ensures files == BuildFiles(scaffold, content)
  {
    files := [];
    for k := 0 to |scaffold|
      invariant |files| == k && forall j :: 0 <= j < k ==> files[j] == BuildFiles(scaffold, content)[j]
    {
      var file := scaffold[k];
      if file.path == APP {
        file := Snapshot(APP, File(content, false));
      }
      files := files + [file];
    }
  }

  /** The list's file set is the old one with the writable file replaced or added; every
      other file keeps its place. */
  method ApplyOverride(files: array<Snapshot>, content: string) returns (out: array<Snapshot>)
    requires DistinctPaths(files[..])
    modifies files
    ensures DistinctPaths(out[..]) && FileSetOf(out[..]) == Override(FileSetOf(old(files[..])), content)
    ensures forall j :: 0 <= j < files.Length && old(files[j]).path != APP ==>
              j < out.Length && out[j] == old(files[j])
  {
    ghost var before := files[..];
    for i := 0 to files.Length
      invariant files[..] == before
      invariant forall j :: 0 <= j < i ==> before[j].path != APP
    {
      if files[i].path == APP {
        files[i] := Snapshot(APP, File(content, false));
        OverriddenAt(before, files[..], Snapshot(APP, File(content, false)));
        return files;
      }
    }
    out := new Snapshot[files.Length + 1](k requires 0 <= k <= files.Length reads files =>
      if k < files.Length then files[k] else Snapshot(APP, File(content, false)));
    assert out[..] == before + [Snapshot(APP, File(content, false))];
    OverriddenAt(before, out[..], Snapshot(APP, File(content, false)));
  }

  /** `b` is the list `a` with the file `f` put in its place, or added if it has none. */
  predicate Overridden(a: seq<Snapshot>, b: seq<Snapshot>, f: Snapshot) {
    |a| <= |b| <= |a| + 1 &&
    (forall j :: 0 <= j < |a| ==> b[j] == if a[j].path == f.path then f else a[j]) &&
    if |b| == |a| then exists j :: 0 <= j < |a| && a[j].path == f.path
    else (forall j :: 0 <= j < |a| ==> a[j].path != f.path) && b[|a|] == f
  }

  lemma OverriddenDistinct(a: seq<Snapshot>, b: seq<Snapshot>, f: Snapshot)
    requires DistinctPaths(a) && Overridden(a, b, f)
    ensures DistinctPaths(b)
  {
    assert forall j :: 0 <= j < |a| ==> b[j].path == a[j].path;
    if |b| == |a| + 1 {
      assert b[|a|].path == f.path;
    }
  }

  lemma OverriddenFile(a: seq<Snapshot>, b: seq<Snapshot>, f: Snapshot, x: FileSet, y: FileSet, j: nat)
    requires Overridden(a, b, f) && j < |b|
    requires forall i :: 0 <= i < |a| ==> a[i].path in x && x[a[i].path] == a[i].file
    requires b[j].path in y && y[b[j].path] == b[j].file
    ensures var x' := x[f.path := f.file]; b[j].path in x' && x'[b[j].path] == y[b[j].path]
  {
    if j < |a| {
      assert a[j].path in x;
    }
  }

  lemma {:induction false} OverriddenAt(a: seq<Snapshot>, b: seq<Snapshot>, f: Snapshot)
    requires DistinctPaths(a) && Overridden(a, b, f)
    ensures DistinctPaths(b) && FileSetOf(b) == FileSetOf(a)[f.path := f.file]
  {
    OverriddenDistinct(a, b, f);
    OverriddenPaths(a, b, f);
    FileSetAt(a);
    FileSetAt(b);
    SameSets(a, b, f, FileSetOf(a), FileSetOf(b));
  }

  lemma SameSets(a: seq<Snapshot>, b: seq<Snapshot>, f: Snapshot, x: FileSet, y: FileSet)
    requires Overridden(a, b, f)
    requires forall i :: 0 <= i < |a| ==> a[i].path in x && x[a[i].path] == a[i].file
    requires forall i :: 0 <= i < |b| ==> b[i].path in y && y[b[i].path] == b[i].file
    requires forall path :: path in y ==> exists j :: 0 <= j < |b| && b[j].path == path
    requires forall path :: path == f.path || path in x ==> path in y
    ensures y == x[f.path := f.file]
  {
    forall path | path in y ensures path in x[f.path := f.file] && x[f.path := f.file][path] == y[path] {
      var j :| 0 <= j < |b| && b[j].path == path;
      OverriddenFile(a, b, f, x, y, j);
    }
  }

  lemma {:induction false} OverriddenPaths(a: seq<Snapshot>, b: seq<Snapshot>, f: Snapshot)
    requires DistinctPaths(a) && DistinctPaths(b) && Overridden(a, b, f)
    ensures forall path :: path == f.path || path in FileSetOf(a) ==> path in FileSetOf(b)
  {
    FileSetAt(a);
    FileSetAt(b);
    forall path | path == f.path || path in FileSetOf(a) ensures path in FileSetOf(b) {
      if path == f.path {
        if |b| == |a| {
          var j :| 0 <= j < |a| && a[j].path == f.path;
          assert b[j].path == path;
        } else {
          assert b[|a|].path == path;
        }
      } else {
        var j :| 0 <= j < |a| && a[j].path == path;
        assert b[j].path == path;
      }
    }
  }
}
