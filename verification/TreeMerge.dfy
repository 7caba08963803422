/** Three-way merging of stored trees, and the composition of many task trees. */
module TreeMerge {
  import opened Base
  import opened CommitGraph

  /** Contents at a path as the driver's map lookup sees them: nil when absent. */
  function At(f: Files, p: string): (content: seq<byte>) {
    if p in f then f[p] else []
  }

  predicate ConflictAt(base: Files, ours: Files, theirs: Files, p: string) {
    At(theirs, p) != At(base, p) && At(ours, p) != At(base, p) && At(ours, p) != At(theirs, p)
  }

  function Entry(f: Files, p: string): (e: Option<seq<byte>>) {
    if p in f then Some(f[p]) else None
  }

  /** The tree entry the merge leaves at p. */
  function MergedEntry(base: Files, ours: Files, theirs: Files, p: string): (e: Option<seq<byte>>) {
    if At(theirs, p) != At(base, p) && At(ours, p) == At(base, p) then
      if At(theirs, p) == [] then None else Some(At(theirs, p))
    else Entry(ours, p)
  }

  ghost predicate IsMerge(base: Files, ours: Files, theirs: Files, merged: Files) {
    forall p :: Entry(merged, p) == MergedEntry(base, ours, theirs, p)
  }

  ghost predicate Clean(base: Files, ours: Files, theirs: Files) {
    forall p :: !ConflictAt(base, ours, theirs, p)
  }

  /** The paths of a set in order. */
  method SortedPaths(paths: set<string>) returns (s: seq<string>)
    ensures Elements(s) == paths
    ensures forall i, j :: 0 <= i < j < |s| ==> IdLess(s[i], s[j])
  {
    var pairs: seq<(Key, string)> := [];
    var rest := paths;
    while rest != {}
      invariant rest <= paths
      invariant forall x :: x in pairs ==> x.0 == Key(0, x.1) && x.1 in paths && x.1 !in rest
      invariant forall p :: p in paths && p !in rest ==> (Key(0, p), p) in pairs
      invariant forall i, j :: 0 <= i < j < |pairs| ==> pairs[i].0 != pairs[j].0
      decreases |rest|
    {
      var p :| p in rest;
      forall i | 0 <= i < |pairs| ensures pairs[i].0 != Key(0, p) {
        assert pairs[i] in pairs;
      }
      rest := rest - {p};
      pairs := pairs + [(Key(0, p), p)];
    }
    var sorted := Sort(pairs);
    SortProps(pairs);
    SameKeysDistinct(pairs, sorted);
    s := seq(|sorted|, i requires 0 <= i < |sorted| => sorted[i].1);
    SortedNames(paths, pairs, sorted, s);
  }

  lemma SortedNames(paths: set<string>, pairs: seq<(Key, string)>, sorted: seq<(Key, string)>, s: seq<string>)
    requires forall x :: x in sorted <==> x in pairs
    requires Sorted(sorted) && forall i, j :: 0 <= i < j < |sorted| ==> sorted[i].0 != sorted[j].0
    requires forall x :: x in pairs ==> x.0 == Key(0, x.1) && x.1 in paths
    requires forall p :: p in paths ==> (Key(0, p), p) in pairs
    requires |s| == |sorted| && forall i :: 0 <= i < |s| ==> s[i] == sorted[i].1
    ensures Elements(s) == paths
    ensures forall i, j :: 0 <= i < j < |s| ==> IdLess(s[i], s[j])
  {
    forall i | 0 <= i < |sorted| ensures sorted[i].0 == Key(0, s[i]) && s[i] in paths {
      assert sorted[i] in sorted;
    }
    forall i, j | 0 <= i < j < |s| ensures IdLess(s[i], s[j]) {
      LessTotal(sorted[i].0, sorted[j].0);
    }
    forall p | p in paths ensures p in s {
      assert (Key(0, p), p) in sorted;
      var i :| 0 <= i < |sorted| && sorted[i] == (Key(0, p), p);
      assert s[i] == p;
    }
  }

  /** The paths already handled hold their merged entry, the others are still ours. */
  ghost predicate MergedSoFar(base: Files, ours: Files, theirs: Files, handled: set<string>, merged: Files) {
    forall p :: Entry(merged, p) == if p in handled then MergedEntry(base, ours, theirs, p) else Entry(ours, p)
  }

  /** The conflicting paths among those handled, in path order. */
  ghost predicate ConflictsSoFar(base: Files, ours: Files, theirs: Files, handled: set<string>, conflicts: seq<string>)
  {
    && (forall p :: p in conflicts <==> p in handled && ConflictAt(base, ours, theirs, p))
    && (forall i, j :: 0 <= i < j < |conflicts| ==> IdLess(conflicts[i], conflicts[j]))
  }

  /** One turn of the loop: what happens to the tree and to the conflict list. */
  ghost function MergePath(base: Files, ours: Files, theirs: Files, p: string, merged: Files, conflicts: seq<string>):
    (r: (Files, seq<string>))
  {
    var b, o, t := At(base, p), At(ours, p), At(theirs, p);
    if t == b then (merged, conflicts)
    else if o == b then ((if t == [] then merged - {p} else merged[p := t]), conflicts)
    else if o == t then (merged, conflicts)
    else (merged, conflicts + [p])
  }

  lemma MergePathKeeps(base: Files, ours: Files, theirs: Files, handled: set<string>, p: string,
                       merged: Files, conflicts: seq<string>)
    requires MergedSoFar(base, ours, theirs, handled, merged)
    requires ConflictsSoFar(base, ours, theirs, handled, conflicts)
    requires p !in handled && forall q :: q in handled ==> IdLess(q, p)
    ensures MergedSoFar(base, ours, theirs, handled + {p}, MergePath(base, ours, theirs, p, merged, conflicts).0)
    ensures ConflictsSoFar(base, ours, theirs, handled + {p}, MergePath(base, ours, theirs, p, merged, conflicts).1)
  {
    assert Entry(merged, p) == Entry(ours, p);
    assert forall i :: 0 <= i < |conflicts| ==> conflicts[i] in conflicts;
  }

  /** The file loop of Merge over every path of theirs or base, in path order. */
  method MergeFiles(base: Files, ours: Files, theirs: Files) returns (merged: Files, conflicts: seq<string>)
    ensures IsMerge(base, ours, theirs, merged)
    ensures forall p :: p in conflicts <==> ConflictAt(base, ours, theirs, p)
    ensures forall i, j :: 0 <= i < j < |conflicts| ==> IdLess(conflicts[i], conflicts[j])
  {
    hide MergedSoFar, ConflictsSoFar, MergedEntry;
    merged, conflicts := ours, [];
    var paths := SortedPaths(theirs.Keys + base.Keys);
    var i := 0;
    NothingHandled(base, ours, theirs);
    assert Elements(paths[..0]) == {};
    while i < |paths|
      invariant 0 <= i <= |paths|
      invariant MergedSoFar(base, ours, theirs, Elements(paths[..i]), merged)
      invariant ConflictsSoFar(base, ours, theirs, Elements(paths[..i]), conflicts)
    {
      NotSeenBefore(paths, i);
      MergePathKeeps(base, ours, theirs, Elements(paths[..i]), paths[i], merged, conflicts);
      ghost var next := MergePath(base, ours, theirs, paths[i], merged, conflicts);
      var p := paths[i];
      var b, o, t := At(base, p), At(ours, p), At(theirs, p);
      if t == b {
        // the source branch left it alone
      } else if o == b {
        if t == [] {
          merged := merged - {p};
        } else {
          merged := merged[p := t];
        }
      } else if o == t {
        // both arrived at the same contents
      } else {
        conflicts := conflicts + [p];
      }
      assert next == (merged, conflicts);
      assert paths[..i + 1] == paths[..i] + [paths[i]];
      assert Elements(paths[..i + 1]) == Elements(paths[..i]) + {paths[i]};
      i := i + 1;
    }
    assert paths[..i] == paths;
    AllHandled(base, ours, theirs, merged, conflicts);
  }

  lemma NothingHandled(base: Files, ours: Files, theirs: Files)
    ensures MergedSoFar(base, ours, theirs, {}, ours)
    ensures ConflictsSoFar(base, ours, theirs, {}, [])
  {
  }

  /** Outside theirs and base there is nothing to merge. */
  lemma AllHandled(base: Files, ours: Files, theirs: Files, merged: Files, conflicts: seq<string>)
    requires MergedSoFar(base, ours, theirs, theirs.Keys + base.Keys, merged)
    requires ConflictsSoFar(base, ours, theirs, theirs.Keys + base.Keys, conflicts)
    ensures IsMerge(base, ours, theirs, merged)
    ensures forall p :: p in conflicts <==> ConflictAt(base, ours, theirs, p)
    ensures forall i, j :: 0 <= i < j < |conflicts| ==> IdLess(conflicts[i], conflicts[j])
  {
  }

  lemma NotSeenBefore(paths: seq<string>, i: nat)
    requires i < |paths| && forall k, l :: 0 <= k < l < |paths| ==> IdLess(paths[k], paths[l])
    ensures paths[i] !in Elements(paths[..i]) && forall q :: q in Elements(paths[..i]) ==> IdLess(q, paths[i])
  {
    forall k | 0 <= k < i ensures paths[k] != paths[i] {
      IdLessTotal(paths[k], paths[i]);
    }
  }

  // ----- composing task trees cut from one base

  /** Merging each tree in turn; a conflicting merge leaves the target where it was. */
  ghost function Compose(base: Files, ours: Files, trees: seq<Files>): (r: Files)
    decreases |trees|
  {
    if trees == [] then ours
    else Compose(base, if Clean(base, ours, trees[0]) then Merged(base, ours, trees[0]) else ours, trees[1..])
  }

  ghost function Merged(base: Files, ours: Files, theirs: Files): (r: Files)
    ensures IsMerge(base, ours, theirs, r)
  {
    var keys := ours.Keys + theirs.Keys;
    var r := map p | p in keys && MergedEntry(base, ours, theirs, p).Some? :: MergedEntry(base, ours, theirs, p).value;
    assert forall p :: MergedEntry(base, ours, theirs, p).Some? ==> p in keys;
    r
  }

  /** No merge of the composition reports a conflict. */
  ghost predicate ComposesCleanly(base: Files, ours: Files, trees: seq<Files>)
    decreases |trees|
  {
    trees == [] ||
    (Clean(base, ours, trees[0]) && ComposesCleanly(base, Merged(base, ours, trees[0]), trees[1..]))
  }

  predicate Changes(base: Files, tree: Files, p: string) {
    At(tree, p) != At(base, p)
  }

  /** No two trees change one path to different contents. */
  ghost predicate Compatible(base: Files, trees: seq<Files>) {
    forall i, j, p :: 0 <= i < j < |trees| && Changes(base, trees[i], p) && Changes(base, trees[j], p) ==>
      At(trees[i], p) == At(trees[j], p)
  }

  /** tree is base overlaid with the changes of every tree. */
  ghost predicate IsOverlay(base: Files, trees: seq<Files>, tree: Files) {
    && (forall i, p :: 0 <= i < |trees| && Changes(base, trees[i], p) ==> At(tree, p) == At(trees[i], p))
    && (forall p :: (forall i :: 0 <= i < |trees| ==> !Changes(base, trees[i], p)) ==> At(tree, p) == At(base, p))
  }

  lemma MergeView(base: Files, ours: Files, theirs: Files, p: string)
    requires Clean(base, ours, theirs)
    ensures At(Merged(base, ours, theirs), p) == if Changes(base, theirs, p) then At(theirs, p) else At(ours, p)
  {
    var m := Merged(base, ours, theirs);
    assert Entry(m, p) == MergedEntry(base, ours, theirs, p);
    assert !ConflictAt(base, ours, theirs, p);
  }

  /** Composing on top of ours, which already overlays `done`: clean exactly when all
      trees together are compatible, and then the result overlays all of them. */
  lemma {:induction false} ComposeOverlays(base: Files, done: seq<Files>, ours: Files, trees: seq<Files>)
    requires IsOverlay(base, done, ours) && Compatible(base, done)
    ensures ComposesCleanly(base, ours, trees) <==> Compatible(base, done + trees)
    ensures ComposesCleanly(base, ours, trees) ==> IsOverlay(base, done + trees, Compose(base, ours, trees))
    decreases |trees|
  {
    hide Clean, Merged, Compatible, IsOverlay;
    if trees == [] {
      assert done + trees == done;
    } else {
      var t, rest := trees[0], trees[1..];
      assert done + trees == (done + [t]) + rest;
      CleanIffCompatible(base, done, ours, t);
      if Clean(base, ours, t) {
        OverlayGrows(base, done, ours, t);
        ComposeOverlays(base, done + [t], Merged(base, ours, t), rest);
      } else {
        if Compatible(base, done + trees) {
          PrefixCompatible(base, done + [t], rest);
        }
      }
    }
  }

  lemma PrefixCompatible(base: Files, a: seq<Files>, b: seq<Files>)
    requires Compatible(base, a + b)
    ensures Compatible(base, a)
  {
    assert forall i :: 0 <= i < |a| ==> (a + b)[i] == a[i];
  }

  lemma CleanIffCompatible(base: Files, done: seq<Files>, ours: Files, t: Files)
    requires IsOverlay(base, done, ours) && Compatible(base, done)
    ensures Clean(base, ours, t) <==> Compatible(base, done + [t])
  {
    var all := done + [t];
    if Clean(base, ours, t) {
      forall i, j, p | 0 <= i < j < |all| && Changes(base, all[i], p) && Changes(base, all[j], p)
        ensures At(all[i], p) == At(all[j], p)
      {
        assert !ConflictAt(base, ours, t, p);
        assert Changes(base, done[i], p) && At(ours, p) == At(done[i], p);
      }
    } else {
      var p :| ConflictAt(base, ours, t, p);
      var i :| 0 <= i < |done| && Changes(base, done[i], p);
      assert all[i] == done[i] && all[|done|] == t;
      assert At(ours, p) == At(done[i], p);
    }
  }

  lemma OverlayGrows(base: Files, done: seq<Files>, ours: Files, t: Files)
    requires IsOverlay(base, done, ours) && Compatible(base, done) && Clean(base, ours, t)
    ensures IsOverlay(base, done + [t], Merged(base, ours, t)) && Compatible(base, done + [t])
  {
    var all, m := done + [t], Merged(base, ours, t);
    CleanIffCompatible(base, done, ours, t);
    forall i, p | 0 <= i < |all| && Changes(base, all[i], p) ensures At(m, p) == At(all[i], p) {
      MergeView(base, ours, t, p);
      assert all[|done|] == t;
      if i < |done| {
        assert At(ours, p) == At(done[i], p);
      }
    }
    forall p | forall i :: 0 <= i < |all| ==> !Changes(base, all[i], p) ensures At(m, p) == At(base, p) {
      MergeView(base, ours, t, p);
      assert all[|done|] == t;
      forall i | 0 <= i < |done| ensures !Changes(base, done[i], p) {
        assert all[i] == done[i];
      }
    }
  }

  /** Integrating trees cut from one base reports no conflict exactly when no two of
      them changed a path to different contents; then the result is the base overlaid
      with every change. */
  lemma IntegrationTheorem(base: Files, trees: seq<Files>)
    ensures ComposesCleanly(base, base, trees) <==> Compatible(base, trees)
    ensures Compatible(base, trees) ==> IsOverlay(base, trees, Compose(base, base, trees))
  {
    ComposeOverlays(base, [], base, trees);
    assert [] + trees == trees;
  }

  /** An overlay is determined path by path. */
  lemma OverlayIsUnique(base: Files, trees: seq<Files>, a: Files, b: Files, p: string)
    requires IsOverlay(base, trees, a) && IsOverlay(base, trees, b)
    ensures At(a, p) == At(b, p)
  {
    if i :| 0 <= i < |trees| && Changes(base, trees[i], p) {
      assert At(a, p) == At(trees[i], p);
    }
  }

  /** The merge order does not matter: any rearrangement of the trees is clean if and
      only if the original is, and leaves the same contents at every path. */
  lemma OrderDoesNotMatter(base: Files, trees: seq<Files>, other: seq<Files>, p: string)
    requires multiset(trees) == multiset(other)
    ensures ComposesCleanly(base, base, trees) <==> ComposesCleanly(base, base, other)
    ensures ComposesCleanly(base, base, trees) ==>
              At(Compose(base, base, trees), p) == At(Compose(base, base, other), p)
  {
    IntegrationTheorem(base, trees);
    IntegrationTheorem(base, other);
    if Compatible(base, other) {
      SameTreesCompatible(base, other, trees);
    }
    if Compatible(base, trees) {
      SameTreesCompatible(base, trees, other);
      SameTreesOverlay(base, trees, other, Compose(base, base, trees));
      OverlayIsUnique(base, other, Compose(base, base, trees), Compose(base, base, other), p);
    }
  }

  lemma SameMembers(trees: seq<Files>, other: seq<Files>)
    requires multiset(trees) == multiset(other)
    ensures forall t :: t in trees <==> t in other
  {
    forall t ensures t in trees <==> t in other {
      assert t in trees <==> t in multiset(trees);
      assert t in other <==> t in multiset(other);
    }
  }

  lemma SameTreesCompatible(base: Files, trees: seq<Files>, other: seq<Files>)
    requires multiset(trees) == multiset(other) && Compatible(base, trees)
    ensures Compatible(base, other)
  {
    SameMembers(trees, other);
    forall i, j, p | 0 <= i < j < |other| && Changes(base, other[i], p) && Changes(base, other[j], p)
      ensures At(other[i], p) == At(other[j], p)
    {
      assert other[i] in trees && other[j] in trees;
      var k :| 0 <= k < |trees| && trees[k] == other[i];
      var l :| 0 <= l < |trees| && trees[l] == other[j];
      assert k < l || l < k || k == l;
    }
  }

  lemma SameTreesOverlay(base: Files, trees: seq<Files>, other: seq<Files>, tree: Files)
    requires multiset(trees) == multiset(other) && IsOverlay(base, trees, tree)
    ensures IsOverlay(base, other, tree)
  {
    SameMembers(trees, other);
    forall i, p | 0 <= i < |other| && Changes(base, other[i], p) ensures At(tree, p) == At(other[i], p) {
      assert other[i] in trees;
      var k :| 0 <= k < |trees| && trees[k] == other[i];
    }
    forall p | forall i :: 0 <= i < |other| ==> !Changes(base, other[i], p) ensures At(tree, p) == At(base, p) {
      forall k | 0 <= k < |trees| ensures !Changes(base, trees[k], p) {
        assert trees[k] in other;
        var i :| 0 <= i < |other| && other[i] == trees[k];
      }
    }
  }

  // ----- empty files

  /** Trees without empty files are determined by what a lookup sees. */
  ghost predicate NoEmptyFiles(f: Files) {
    forall p :: p in f ==> f[p] != []
  }

  lemma ViewDeterminesTree(a: Files, b: Files)
    requires NoEmptyFiles(a) && NoEmptyFiles(b) && forall p :: At(a, p) == At(b, p)
    ensures a == b
  {
    assert forall p :: p in a <==> At(a, p) != [];
    assert forall p :: p in b <==> At(b, p) != [];
  }

  lemma {:induction false} ComposeKeepsNoEmptyFiles(base: Files, ours: Files, trees: seq<Files>)
    requires NoEmptyFiles(ours)
    ensures NoEmptyFiles(Compose(base, ours, trees))
    decreases |trees|
  {
    if trees != [] {
      var m := Merged(base, ours, trees[0]);
      forall p | p in m ensures m[p] != [] {
        assert Some(m[p]) == MergedEntry(base, ours, trees[0], p);
      }
      ComposeKeepsNoEmptyFiles(base, if Clean(base, ours, trees[0]) then m else ours, trees[1..]);
    }
  }

  /** Without empty files in the base the integrated tree itself, not only its
      contents, is the same for every merge order. */
  lemma OrderDoesNotMatterForTrees(base: Files, trees: seq<Files>, other: seq<Files>)
    requires multiset(trees) == multiset(other) && NoEmptyFiles(base) && ComposesCleanly(base, base, trees)
    ensures Compose(base, base, trees) == Compose(base, base, other)
  {
    forall p ensures At(Compose(base, base, trees), p) == At(Compose(base, base, other), p) {
      OrderDoesNotMatter(base, trees, other, p);
    }
    ComposeKeepsNoEmptyFiles(base, base, trees);
    ComposeKeepsNoEmptyFiles(base, base, other);
    ViewDeterminesTree(Compose(base, base, trees), Compose(base, base, other));
  }

  /** Merging a branch into its unchanged base reproduces the branch tree exactly when
      every empty file of the branch is one of the base and every empty file of the base is
      still in the branch: an added empty file is dropped, a file truncated to empty is
      deleted, a deleted empty file stays. */
  lemma MergeReproducesIff(base: Files, theirs: Files)
    ensures Clean(base, base, theirs)
    ensures Merged(base, base, theirs) == theirs <==>
              forall p :: At(theirs, p) == [] ==> (p in theirs <==> p in base && base[p] == [])
  {
    var m := Merged(base, base, theirs);
    if m == theirs {
      forall p | At(theirs, p) == [] ensures p in theirs <==> p in base && base[p] == [] {
        assert Entry(m, p) == MergedEntry(base, base, theirs, p);
      }
    }
    if forall p :: At(theirs, p) == [] ==> (p in theirs <==> p in base && base[p] == []) {
      forall p ensures (p in m <==> p in theirs) && (p in m ==> m[p] == theirs[p]) {
        assert Entry(m, p) == MergedEntry(base, base, theirs, p);
      }
    }
  }
}
