/** Merging task branches, all cut from one base, one after another into one branch. */
module Integration {
  import opened CommitGraph
  import opened TreeMerge
  import opened Repository

  ghost function TipFiles(r: Repo, order: int, name: string): (f: Files)
    requires RepoOk(r, order) && name in r.branches
  {
    r.commits[r.branches[name]].files
  }

  ghost function Trees(r: Repo, order: int, names: seq<string>): (ts: seq<Files>)
    requires RepoOk(r, order) && forall i :: 0 <= i < |names| ==> names[i] in r.branches
    ensures |ts| == |names| && forall i :: 0 <= i < |names| ==> ts[i] == TipFiles(r, order, names[i])
  {
    seq(|names|, i requires 0 <= i < |names| => TipFiles(r, order, names[i]))
  }

  /** tip descends from base and shares only base's history with the branches from k on. */
  ghost predicate Apart(r: Repo, order: int, base: Sha, tip: Sha, names: seq<string>, k: nat)
    requires RepoOk(r, order) && Cut(r, order, base, names)
  {
    && tip in r.commits && base in Ancestors(r.commits, tip)
    && forall i :: k <= i < |names| ==>
         Ancestors(r.commits, tip) * Line(r, order, names[i]) <= Ancestors(r.commits, base)
  }

  /** Contents that differ from the base come from one of the trees. */
  ghost predicate FromTrees(base: Files, tree: Files, trees: seq<Files>) {
    forall p :: Changes(base, tree, p) ==> exists i :: 0 <= i < |trees| && At(trees[i], p) == At(tree, p)
  }

  /** Two trees changed p to different contents. */
  ghost predicate Contested(base: Files, trees: seq<Files>, p: string) {
    exists i, j :: 0 <= i < j < |trees| && Changes(base, trees[i], p) && Changes(base, trees[j], p) &&
      At(trees[i], p) != At(trees[j], p)
  }

  /** How the trees composed so far relate to composing all of them. */
  ghost predicate Progress(base: Files, trees: seq<Files>, tree: Files, k: nat, conflicts: seq<string>)
    requires k <= |trees|
  {
    && Compose(base, tree, trees[k..]) == Compose(base, base, trees)
    && ((conflicts == [] && ComposesCleanly(base, tree, trees[k..])) <==> ComposesCleanly(base, base, trees))
    && FromTrees(base, tree, trees[..k])
    && (forall p :: p in conflicts ==> Contested(base, trees, p))
  }

  /** The tree after trying to merge one more. */
  ghost function Tried(base: Files, tree: Files, next: Files): (r: Files) {
    if Clean(base, tree, next) then Merged(base, tree, next) else tree
  }

  lemma ProgressStarts(base: Files, trees: seq<Files>)
    ensures Progress(base, trees, base, 0, [])
  {
    assert trees[0..] == trees;
  }

  lemma ProgressSteps(base: Files, trees: seq<Files>, tree: Files, k: nat, conflicts: seq<string>, more: seq<string>)
    requires k < |trees| && Progress(base, trees, tree, k, conflicts)
    requires forall p :: p in more <==> ConflictAt(base, tree, trees[k], p)
    ensures Progress(base, trees, Tried(base, tree, trees[k]), k + 1, conflicts + more)
  {
    hide Merged, Compatible;
    assert trees[k..][1..] == trees[k + 1..];
    assert more == [] <==> Clean(base, tree, trees[k]) by { CleanIffNone(base, tree, trees[k], more); }
    StillFromTrees(base, trees, tree, k);
    forall p | p in conflicts + more ensures Contested(base, trees, p) {
      if p in more {
        ConflictIsContested(base, trees, tree, k, p);
      }
    }
  }

  lemma CleanIffNone(base: Files, ours: Files, theirs: Files, conflicts: seq<string>)
    requires forall p :: p in conflicts <==> ConflictAt(base, ours, theirs, p)
    ensures conflicts == [] <==> Clean(base, ours, theirs)
  {
    if conflicts != [] {
      assert conflicts[0] in conflicts;
    }
  }

  lemma StillFromTrees(base: Files, trees: seq<Files>, tree: Files, k: nat)
    requires k < |trees| && FromTrees(base, tree, trees[..k])
    ensures FromTrees(base, Tried(base, tree, trees[k]), trees[..k + 1])
  {
    var next := Tried(base, tree, trees[k]);
    var upTo := trees[..k + 1];
    forall p | Changes(base, next, p) ensures exists i :: 0 <= i < |upTo| && At(upTo[i], p) == At(next, p) {
      if Clean(base, tree, trees[k]) {
        MergeView(base, tree, trees[k], p);
      }
      if At(next, p) == At(trees[k], p) {
        assert upTo[k] == trees[k];
      } else {
        var i :| 0 <= i < k && At(trees[..k][i], p) == At(tree, p);
        assert upTo[i] == trees[..k][i];
      }
    }
  }

  lemma ConflictIsContested(base: Files, trees: seq<Files>, tree: Files, k: nat, p: string)
    requires k < |trees| && FromTrees(base, tree, trees[..k]) && ConflictAt(base, tree, trees[k], p)
    ensures Contested(base, trees, p)
  {
    assert Changes(base, tree, p);
    var i :| 0 <= i < k && At(trees[..k][i], p) == At(tree, p);
    assert trees[..k][i] == trees[i];
    assert Changes(base, trees[i], p) && Changes(base, trees[k], p);
  }

  /** When all are merged: no conflict exactly for compatible trees, and then their overlay. */
  lemma ProgressEnds(base: Files, trees: seq<Files>, tree: Files, conflicts: seq<string>)
    requires Progress(base, trees, tree, |trees|, conflicts)
    ensures conflicts == [] <==> Compatible(base, trees)
    ensures tree == Compose(base, base, trees)
    ensures conflicts == [] ==> IsOverlay(base, trees, tree)
    ensures forall p :: p in conflicts ==> Contested(base, trees, p)
  {
    assert trees[|trees|..] == [];
    IntegrationTheorem(base, trees);
  }

  // ----- one merge of the driver is one step of the composition

  /** A merge into a branch outside names keeps the cut, the trees and old ancestors. */
  lemma MergeKeepsCut(r: Repo, order: int, base: Sha, names: seq<string>, target: string, source: string,
                      message: string, res: MergeResult, after: Repo, afterOrder: int)
    requires RepoOk(r, order) && Cut(r, order, base, names) && target !in names
    requires target in r.branches && source in r.branches
    requires Merges(r, order, target, source, message, res, after, afterOrder)
    ensures RepoOk(after, afterOrder) && Cut(after, afterOrder, base, names)
    ensures forall s :: s in r.commits ==> s in after.commits && Ancestors(after.commits, s) == Ancestors(r.commits, s)
    ensures Trees(after, afterOrder, names) == Trees(r, order, names)
    ensures after.commits[base] == r.commits[base]
  {
    hide Graph, Ancestors, Merges;
    MergesKeeps(r, order, target, source, message, res, after, afterOrder);
    forall s | s in r.commits ensures Ancestors(after.commits, s) == Ancestors(r.commits, s) {
      AncestorsKept(r.commits, after.commits, s);
    }
    forall i | 0 <= i < |names|
      ensures names[i] in after.branches && after.branches[names[i]] == r.branches[names[i]]
      ensures Line(after, afterOrder, names[i]) == Line(r, order, names[i])
    {
      assert names[i] in names;
    }
  }

  lemma MergeTipAncestors(c: Commits, s: Sha, a: Sha, b: Sha)
    requires Graph(c) && s in c && c[s].parents == [a, b] && a in c && b in c
    ensures Ancestors(c, s) == Ancestors(c, a) + Ancestors(c, b) + {s}
  {
    assert c[s].parents[0] == a && c[s].parents[1] == b;
  }

  /** The merge base is the cut base, so the merge composes the next tree onto the tip. */
  lemma MergeComposes(r: Repo, order: int, base: Sha, names: seq<string>, k: nat, target: string,
                      message: string, res: MergeResult, after: Repo, afterOrder: int)
    requires RepoOk(r, order) && Cut(r, order, base, names) && k < |names|
    requires target in r.branches && Apart(r, order, base, r.branches[target], names, k)
    requires names[k] in r.branches
    requires Merges(r, order, target, names[k], message, res, after, afterOrder)
    ensures RepoOk(after, afterOrder) && target in after.branches
    ensures TipFiles(after, afterOrder, target) ==
              Tried(r.commits[base].files, TipFiles(r, order, target), TipFiles(r, order, names[k]))
    ensures forall p :: p in res.conflicts <==>
              ConflictAt(r.commits[base].files, TipFiles(r, order, target), TipFiles(r, order, names[k]), p)
  {
    hide Graph, Ancestors, Merged, IsMergeBase;
    MergesKeeps(r, order, target, names[k], message, res, after, afterOrder);
    var ours, theirs := r.branches[target], r.branches[names[k]];
    BaseOfCut(r.commits, ours, theirs, base);
    var b, o, t := r.commits[base].files, r.commits[ours].files, r.commits[theirs].files;
    if ours == theirs {
      MergeSame(b);
    } else {
      CleanIffNone(b, o, t, res.conflicts);
    }
  }

  lemma MergeSame(f: Files)
    ensures Clean(f, f, f) && Merged(f, f, f) == f
  {
    MergeReproducesIff(f, f);
  }

  lemma MergeStaysApart(r: Repo, order: int, base: Sha, names: seq<string>, k: nat, target: string,
                        message: string, res: MergeResult, after: Repo, afterOrder: int)
    requires RepoOk(r, order) && Cut(r, order, base, names) && k < |names| && target !in names
    requires target in r.branches && Apart(r, order, base, r.branches[target], names, k)
    requires names[k] in r.branches
    requires Merges(r, order, target, names[k], message, res, after, afterOrder)
    ensures RepoOk(after, afterOrder) && Cut(after, afterOrder, base, names)
    ensures target in after.branches && Apart(after, afterOrder, base, after.branches[target], names, k + 1)
  {
    hide Graph, Ancestors, Merged, IsMergeBase, RepoOk;
    RepoParts(r, order);
    MergeKeepsCut(r, order, base, names, target, names[k], message, res, after, afterOrder);
    MergesKeeps(r, order, target, names[k], message, res, after, afterOrder);
    RepoParts(after, afterOrder);
    var ours, theirs := r.branches[target], r.branches[names[k]];
    if after.branches[target] != ours {
      var tip := after.branches[target];
      TipIsNew(r, order, target, names[k], message, res, after, afterOrder);
      MergeTipAncestors(after.commits, tip, ours, theirs);
      forall i | k + 1 <= i < |names|
        ensures Ancestors(after.commits, tip) * Line(after, afterOrder, names[i]) <= Ancestors(after.commits, base)
      {
        assert names[i] in names;
        NotBelow(r, order, names[i], tip);
        assert Line(after, afterOrder, names[i]) == Line(r, order, names[i]);
        assert Line(r, order, names[k]) * Line(r, order, names[i]) <= Ancestors(r.commits, base);
      }
    } else {
      ApartLater(r, order, base, ours, names, k, after, afterOrder, target);
    }
  }

  /** The tip did not move: apart from fewer branches. */
  lemma ApartLater(r: Repo, order: int, base: Sha, tip: Sha, names: seq<string>, k: nat,
                   after: Repo, afterOrder: int, target: string)
    requires RepoOk(r, order) && Cut(r, order, base, names) && Apart(r, order, base, tip, names, k)
    requires RepoOk(after, afterOrder) && Cut(after, afterOrder, base, names) && target !in names
    requires target in after.branches && after.branches == r.branches[target := after.branches[target]]
    requires forall s :: s in r.commits ==> s in after.commits && Ancestors(after.commits, s) == Ancestors(r.commits, s)
    ensures Apart(after, afterOrder, base, tip, names, k + 1)
  {
    hide Graph, Ancestors;
    forall i | k + 1 <= i < |names|
      ensures Ancestors(after.commits, tip) * Line(after, afterOrder, names[i]) <= Ancestors(after.commits, base)
    {
      assert names[i] in names;
      assert Line(after, afterOrder, names[i]) == Line(r, order, names[i]);
    }
  }

  lemma TipIsNew(r: Repo, order: int, target: string, source: string,
                 message: string, res: MergeResult, after: Repo, afterOrder: int)
    requires RepoOk(r, order) && target in r.branches && source in r.branches
    requires Merges(r, order, target, source, message, res, after, afterOrder)
    requires after.branches[target] != r.branches[target]
    ensures after.branches[target] in after.commits && after.branches[target] !in r.commits
    ensures after.commits[after.branches[target]].parents == [r.branches[target], r.branches[source]]
  {
    hide Graph, Ancestors, Merged;
    var ours, theirs := r.branches[target], r.branches[source];
    var b := r.commits[MergeBaseOf(r.commits, ours, theirs)].files;
    var c := NewCommit(order + 1, message, [ours, theirs], Merged(b, r.commits[ours].files, r.commits[theirs].files));
    AdvanceKeeps(r, order, target, c);
  }

  lemma NotBelow(r: Repo, order: int, name: string, s: Sha)
    requires RepoOk(r, order) && name in r.branches && s !in r.commits
    ensures s !in Line(r, order, name)
  {
    if s in Line(r, order, name) {
      AncestorsAreOlder(r.commits, r.branches[name], s);
    }
  }
}
