/** Which run made a version (internal/store/workflow_state.go, previewWorkflowRunTx):
    manual iterations have no run, so the walk follows their base versions. */
module Lineage {
  import opened Prelude
  import opened Tables
  import opened Operations
  import opened Invariant
  import Gate

  /** The iteration that created version `v`. */
  function Creator(vs: seq<Version>, its: seq<Iteration>, v: Id): Option<Iteration> {
    if v < |vs| && vs[v].iteration < |its| then Some(its[vs[v].iteration]) else None
  }

  function RunOf(vs: seq<Version>, its: seq<Iteration>, v: Id): Option<Id> {
    match Creator(vs, its, v) case None => None case Some(it) => it.run
  }

  function BaseOf(vs: seq<Version>, its: seq<Iteration>, v: Id): Option<Id> {
    match Creator(vs, its, v) case None => None case Some(it) => it.base
  }

  /** The version `n` base links away from `v`. */
  function Ancestor(vs: seq<Version>, its: seq<Iteration>, v: Id, n: nat): Option<Id> {
    if n == 0 then Some(v)
    else match Ancestor(vs, its, v, n - 1) case None => None case Some(u) => BaseOf(vs, its, u)
  }

  ghost predicate RunAt(vs: seq<Version>, its: seq<Iteration>, v: Id, n: nat, r: Id) {
    Ancestor(vs, its, v, n).Some? && RunOf(vs, its, Ancestor(vs, its, v, n).value) == Some(r)
  }

  /** The nearest ancestor of `v`, itself included, whose iteration has a run is `n` links
      away and its run is `r`. */
  ghost predicate Nearest(vs: seq<Version>, its: seq<Iteration>, v: Id, n: nat, r: Id) {
    RunAt(vs, its, v, n, r) && forall m, r' :: 0 <= m < n ==> !RunAt(vs, its, v, m, r')
  }

  lemma NearestUnique(vs: seq<Version>, its: seq<Iteration>, v: Id, n: nat, r: Id, n': nat, r': Id)
    requires Nearest(vs, its, v, n, r) && Nearest(vs, its, v, n', r')
    ensures n == n' && r == r'
  {
    assert n < n' ==> RunAt(vs, its, v, n, r);
    assert n' < n ==> RunAt(vs, its, v, n', r');
  }

  ghost predicate HasRun(vs: seq<Version>, its: seq<Iteration>, v: Id) {
    exists n, r :: Nearest(vs, its, v, n, r)
  }

  /** The run of the nearest ancestor that has one; None if no ancestor has. */
  ghost function Provenance(vs: seq<Version>, its: seq<Iteration>, v: Option<Id>): Option<Id> {
    if v.Some? && HasRun(vs, its, v.value)
    then var n: nat, r: Id :| Nearest(vs, its, v.value, n, r); Some(r)
    else None
  }

  lemma ProvenanceIs(vs: seq<Version>, its: seq<Iteration>, v: Id, n: nat, r: Id)
    requires Nearest(vs, its, v, n, r)
    ensures Provenance(vs, its, Some(v)) == Some(r)
  {
    var n': nat, r': Id :| Nearest(vs, its, v, n', r') && Provenance(vs, its, Some(v)) == Some(r');
    NearestUnique(vs, its, v, n, r, n', r');
  }

  /** Once the ancestors repeat, they never leave the ones already seen. */
  lemma {:induction false} AncestorsRepeat(vs: seq<Version>, its: seq<Iteration>, v: Id, i: nat, k: nat, n: nat)
    requires i < k && Ancestor(vs, its, v, i) == Ancestor(vs, its, v, k)
    ensures exists m :: 0 <= m < k && Ancestor(vs, its, v, m) == Ancestor(vs, its, v, n)
  {
    if n >= k {
      AncestorsRepeat(vs, its, v, i, k, n - 1);
      var m :| 0 <= m < k && Ancestor(vs, its, v, m) == Ancestor(vs, its, v, n - 1);
      assert Ancestor(vs, its, v, m + 1) == Ancestor(vs, its, v, n);
      if m + 1 == k {
        assert Ancestor(vs, its, v, i) == Ancestor(vs, its, v, n);
      }
    }
  }

  lemma {:induction false} AncestorEnds(vs: seq<Version>, its: seq<Iteration>, v: Id, k: nat, n: nat)
    requires k <= n && Ancestor(vs, its, v, k) == None
    ensures Ancestor(vs, its, v, n) == None
  {
    if k < n {
      AncestorEnds(vs, its, v, k, n - 1);
    }
  }

  /** Without a run among the first `k` ancestors, and none after them, there is none. */
  lemma {:induction false} NoRun(vs: seq<Version>, its: seq<Iteration>, v: Id, k: nat, i: nat)
    requires forall m, r :: 0 <= m < k ==> !RunAt(vs, its, v, m, r)
    requires Ancestor(vs, its, v, k) == None || (i < k && Ancestor(vs, its, v, i) == Ancestor(vs, its, v, k))
    ensures Provenance(vs, its, Some(v)) == None
  {
    forall n: nat, r: Id ensures !RunAt(vs, its, v, n, r) {
      if Ancestor(vs, its, v, k) == None {
        if k <= n {
          AncestorEnds(vs, its, v, k, n);
        }
      } else {
        AncestorsRepeat(vs, its, v, i, k, n);
        var m :| 0 <= m < k && Ancestor(vs, its, v, m) == Ancestor(vs, its, v, n);
        assert !RunAt(vs, its, v, m, r);
      }
    }
  }

  ghost function Rows(n: nat): (s: set<Id>)
    ensures forall i: nat :: i in s <==> i < n
  {
    if n == 0 then {} else Rows(n - 1) + {n - 1}
  }

  /** The walk from `v` stands at `current` after `k` links and has found no run; `seen` are
      the versions before. */
  ghost predicate Walked(vs: seq<Version>, its: seq<Iteration>, v: Id, k: nat, current: Id, seen: set<Id>) {
    Ancestor(vs, its, v, k) == Some(current) &&
    (forall m, r :: 0 <= m < k ==> !RunAt(vs, its, v, m, r)) &&
    (forall m :: 0 <= m < k ==> Ancestor(vs, its, v, m).Some? && Ancestor(vs, its, v, m).value in seen) &&
    forall u: Id :: u in seen ==> exists m: nat :: m < k && Ancestor(vs, its, v, m) == Some(u)
  }

  lemma WalkFinds(vs: seq<Version>, its: seq<Iteration>, v: Id, k: nat, current: Id, seen: set<Id>, r: Id)
    requires Walked(vs, its, v, k, current, seen) && RunOf(vs, its, current) == Some(r)
    ensures Provenance(vs, its, Some(v)) == Some(r)
  {
    assert Nearest(vs, its, v, k, r);
    ProvenanceIs(vs, its, v, k, r);
  }

  lemma WalkRepeats(vs: seq<Version>, its: seq<Iteration>, v: Id, k: nat, current: Id, seen: set<Id>)
    requires Walked(vs, its, v, k, current, seen) && current in seen
    ensures Provenance(vs, its, Some(v)) == None
  {
    var i: nat :| i < k && Ancestor(vs, its, v, i) == Some(current);
    assert Ancestor(vs, its, v, i) == Ancestor(vs, its, v, k);
    NoRun(vs, its, v, k, i);
  }

  lemma WalkStops(vs: seq<Version>, its: seq<Iteration>, v: Id, k: nat, current: Id, seen: set<Id>)
    requires Walked(vs, its, v, k, current, seen)
    requires RunOf(vs, its, current) == None && BaseOf(vs, its, current) == None
    ensures Provenance(vs, its, Some(v)) == None
  {
    assert Ancestor(vs, its, v, k + 1) == None;
    assert forall r :: !RunAt(vs, its, v, k, r);
    NoRun(vs, its, v, k + 1, 0);
  }

  lemma WalkGoesOn(vs: seq<Version>, its: seq<Iteration>, v: Id, k: nat, current: Id, seen: set<Id>, b: Id)
    requires Walked(vs, its, v, k, current, seen)
    requires RunOf(vs, its, current) == None && BaseOf(vs, its, current) == Some(b)
    ensures Walked(vs, its, v, k + 1, b, seen + {current})
  {
    assert forall r :: !RunAt(vs, its, v, k, r);
    forall u: Id | u in seen + {current} ensures exists m: nat :: m < k + 1 && Ancestor(vs, its, v, m) == Some(u) {
      if u in seen {
        var m :| 0 <= m < k && Ancestor(vs, its, v, m) == Some(u);
      } else {
        assert Ancestor(vs, its, v, k) == Some(u);
      }
    }
  }

  /** The walk of the source.  It ends on every graph, a cyclic one included. */
  method PreviewWorkflowRun(vs: seq<Version>, its: seq<Iteration>, version: Option<Id>) returns (run: Option<Id>)
    ensures run == Provenance(vs, its, version)
  {
    if version.None? {
      return None;
    }
    var current: Id := version.value;
    var seen: set<Id> := {};
    ghost var v: Id, all := version.value, Rows(|vs|);
    ghost var k: nat := 0;
    while true
      invariant Walked(vs, its, v, k, current, seen) && seen <= all
      decreases all - seen
    {
      if current in seen {
        WalkRepeats(vs, its, v, k, current, seen);
        return None;
      }
      if current >= |vs| || vs[current].iteration >= |its| {
        WalkStops(vs, its, v, k, current, seen);
        return None;
      }
      var it := its[vs[current].iteration];
      if it.run.Some? {
        WalkFinds(vs, its, v, k, current, seen, it.run.value);
        return it.run;
      }
      if it.base.None? {
        WalkStops(vs, its, v, k, current, seen);
        return None;
      }
      WalkGoesOn(vs, its, v, k, current, seen, it.base.value);
      seen := seen + {current};
      current := it.base.value;
      k := k + 1;
    }
  }

  /* ---- Reachable states ---- */

  lemma {:induction false} AncestorOfBase(vs: seq<Version>, its: seq<Iteration>, v: Id, b: Id, n: nat)
    requires BaseOf(vs, its, v) == Some(b)
    ensures Ancestor(vs, its, v, n + 1) == Ancestor(vs, its, b, n)
  {
    if n > 0 {
      AncestorOfBase(vs, its, v, b, n - 1);
    } else {
      assert Ancestor(vs, its, v, 0) == Some(v);
    }
  }

  /** A version without a run of its own has the provenance of its base. */
  lemma NearestThroughBase(vs: seq<Version>, its: seq<Iteration>, v: Id, b: Id, n: nat, r: Id)
    requires BaseOf(vs, its, v) == Some(b) && RunOf(vs, its, v) == None && Nearest(vs, its, b, n, r)
    ensures Nearest(vs, its, v, n + 1, r)
  {
    AncestorOfBase(vs, its, v, b, n);
    forall m: nat, r' | m < n + 1 ensures !RunAt(vs, its, v, m, r') {
      if m > 0 {
        AncestorOfBase(vs, its, v, b, m - 1);
        assert !RunAt(vs, its, b, m - 1, r');
      }
    }
  }

  /** In every reachable state the walk ends at a run of the version's own project, after
      fewer steps than there are older versions. */
  lemma {:induction false} LineageFindsRun(db: Db, ro: FileSet, v: Id) returns (n: nat, r: Id)
    requires Inv(db, ro) && v < |db.versions|
    ensures n <= v && Nearest(db.versions, db.iterations, v, n, r)
    ensures r < |db.runs| && db.runs[r].project == db.versions[v].project
    ensures Provenance(db.versions, db.iterations, Some(v)) == Some(r)
    decreases v
  {
    assert VersionOk(db, ro, v);
    var i := db.versions[v].iteration;
    assert IterationOk(db, i);
    var it := db.iterations[i];
    if it.run.Some? {
      n, r := 0, it.run.value;
      assert Ancestor(db.versions, db.iterations, v, 0) == Some(v);
      assert RunAt(db.versions, db.iterations, v, 0, r);
    } else {
      var b := it.base.value;
      n, r := LineageFindsRun(db, ro, b);
      NearestThroughBase(db.versions, db.iterations, v, b, n, r);
      n := n + 1;
    }
    ProvenanceIs(db.versions, db.iterations, v, n, r);
  }

  /** The base links of a reachable state go to older versions: there is no cycle. */
  lemma {:induction false} AncestorsAreOlder(db: Db, ro: FileSet, v: Id, n: nat)
    requires Inv(db, ro) && v < |db.versions| && n > 0
    requires Ancestor(db.versions, db.iterations, v, n).Some?
    ensures Ancestor(db.versions, db.iterations, v, n).value < v
  {
    var u := Ancestor(db.versions, db.iterations, v, n - 1).value;
    if n > 1 {
      AncestorsAreOlder(db, ro, v, n - 1);
    }
    assert VersionOk(db, ro, u);
  }

  lemma {:induction false} AncestorsKept(db: Db, ro: FileSet, d: Db, v: Id, n: nat)
    requires Inv(db, ro) && Grows(db, d) && v < |db.versions|
    ensures Ancestor(d.versions, d.iterations, v, n) == Ancestor(db.versions, db.iterations, v, n)
    ensures Ancestor(db.versions, db.iterations, v, n).Some? ==>
              Ancestor(db.versions, db.iterations, v, n).value <= v
  {
    if n > 0 {
      AncestorsKept(db, ro, d, v, n - 1);
      if Ancestor(db.versions, db.iterations, v, n - 1).Some? {
        var u := Ancestor(db.versions, db.iterations, v, n - 1).value;
        assert VersionOk(db, ro, u) && VersionKept(db.versions[u], d.versions[u]);
        assert IterationKept(db.iterations[db.versions[u].iteration], d.iterations[db.versions[u].iteration]);
        if Ancestor(db.versions, db.iterations, v, n).Some? {
          AncestorsAreOlder(db, ro, v, n);
        }
      }
    }
  }

  /** The provenance of a version never changes. */
  lemma ProvenanceKept(db: Db, ro: FileSet, d: Db, v: Id)
    requires Inv(db, ro) && Grows(db, d) && v < |db.versions|
    ensures Provenance(d.versions, d.iterations, Some(v)) == Provenance(db.versions, db.iterations, Some(v))
    ensures Provenance(d.versions, d.iterations, Some(v)).Some?
  {
    var n, r := LineageFindsRun(db, ro, v);
    forall m: nat, r' | m <= n
      ensures RunAt(d.versions, d.iterations, v, m, r') == RunAt(db.versions, db.iterations, v, m, r')
    {
      AncestorsKept(db, ro, d, v, m);
      if Ancestor(db.versions, db.iterations, v, m).Some? {
        var u := Ancestor(db.versions, db.iterations, v, m).value;
        assert VersionOk(db, ro, u) && VersionKept(db.versions[u], d.versions[u]);
        assert IterationKept(db.iterations[db.versions[u].iteration], d.iterations[db.versions[u].iteration]);
      }
    }
    assert Nearest(d.versions, d.iterations, v, n, r) by {
      assert RunAt(db.versions, db.iterations, v, n, r);
      forall m: nat, r' | m < n ensures !RunAt(d.versions, d.iterations, v, m, r') {
        assert !RunAt(db.versions, db.iterations, v, m, r');
      }
    }
    ProvenanceIs(d.versions, d.iterations, v, n, r);
  }
}
