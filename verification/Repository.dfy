/** Repositories of the in-memory SCM driver as values: how commits extend the graph,
    and branches cut from one base. */
module Repository {
  import opened Base
  import opened CommitGraph
  import opened TreeMerge

  datatype Repo = Repo(defaultBranch: string, branches: map<string, Sha>, commits: Commits)

  /** A repository all of whose commits were numbered up to `order`. */
  ghost predicate RepoOk(r: Repo, order: int) {
    && order >= 0
    && Graph(r.commits)
    && (forall b :: b in r.branches ==> r.branches[b] in r.commits)
    && (forall s :: s in r.commits ==> r.commits[s].order <= order)
  }

  function NewCommit(order: int, message: string, parents: seq<Sha>, files: Files): (c: Commit) {
    Commit(Digest(order, parents, message, files), parents, order, files)
  }

  /** Store a commit and move a branch to it. */
  function Advance(r: Repo, branch: string, c: Commit): (after: Repo) {
    r.(commits := r.commits[c.sha := c], branches := r.branches[branch := c.sha])
  }

  /** The repository Init creates. */
  function Seeded(defaultBranch: string, c: Commit): (r: Repo) {
    Repo(defaultBranch, map[defaultBranch := c.sha], map[c.sha := c])
  }

  /** A commit numbered next whose parents are stored. */
  ghost predicate Extends(commits: Commits, order: int, c: Commit) {
    && c.sha.Digest? && c.sha.order == c.order == order + 1 && c.parents != []
    && (forall p :: p in c.parents ==> p in commits)
  }

  // ----- extending the graph

  lemma ExtendsKeepsGraph(commits: Commits, order: int, c: Commit)
    requires Graph(commits) && (forall s :: s in commits ==> commits[s].order <= order)
    requires order >= 0 && Extends(commits, order, c)
    ensures c.sha !in commits
    ensures Graph(commits[c.sha := c])
  {
    assert forall s :: s in commits ==> s.Digest? && s.order <= order by {
      assert forall s :: s in commits ==> CommitOk(commits, s);
    }
    var after := commits[c.sha := c];
    forall s | s in after ensures CommitOk(after, s) {
      if s != c.sha {
        assert CommitOk(commits, s);
      }
    }
  }

  lemma {:induction false} AncestorsKept(commits: Commits, after: Commits, s: Sha)
    requires Graph(commits) && Graph(after) && s in commits
    requires forall t :: t in commits ==> t in after && after[t] == commits[t]
    ensures Ancestors(after, s) == Ancestors(commits, s)
    decreases commits[s].order
  {
    assert CommitOk(commits, s);
    forall p | p in commits[s].parents ensures p in commits && Ancestors(after, p) == Ancestors(commits, p) {
      AncestorsKept(commits, after, p);
    }
  }

  lemma AdvanceKeeps(r: Repo, order: int, branch: string, c: Commit)
    requires RepoOk(r, order) && Extends(r.commits, order, c)
    ensures RepoOk(Advance(r, branch, c), order + 1)
    ensures c.sha !in r.commits
    ensures forall s :: s in r.commits ==> Ancestors(Advance(r, branch, c).commits, s) == Ancestors(r.commits, s)
  {
    ExtendsKeepsGraph(r.commits, order, c);
    forall s | s in r.commits ensures Ancestors(Advance(r, branch, c).commits, s) == Ancestors(r.commits, s) {
      AncestorsKept(r.commits, Advance(r, branch, c).commits, s);
    }
  }

  lemma SeededOk(defaultBranch: string, order: int, message: string, files: Files)
    requires order >= 0
    ensures RepoOk(Seeded(defaultBranch, NewCommit(order + 1, message, [], files)), order + 1)
  {
    var c := NewCommit(order + 1, message, [], files);
    assert CommitOk(map[c.sha := c], c.sha);
  }

  // ----- the merge base as a function

  lemma {:induction false} YoungestExists(c: Commits, ss: set<Sha>) returns (x: Sha)
    requires ss != {} && ss <= c.Keys
    ensures x in ss && forall y :: y in ss ==> c[y].order <= c[x].order
    decreases |ss|
  {
    x :| x in ss;
    var rest := ss - {x};
    assert ss == rest + {x};
    if rest != {} {
      var y := YoungestExists(c, rest);
      x := if c[y].order > c[x].order then y else x;
    }
  }

  lemma MergeBaseExists(c: Commits, a: Sha, b: Sha)
    requires Graph(c) && a in c && b in c
    ensures exists x :: IsMergeBase(c, a, b, x)
  {
    CommonIsNotEmpty(c, a, b);
    forall y | y in Common(c, a, b) ensures y in c {
      AncestorsAreOlder(c, a, y);
    }
    var x := YoungestExists(c, Common(c, a, b));
    assert IsMergeBase(c, a, b, x);
  }

  ghost function MergeBaseOf(c: Commits, a: Sha, b: Sha): (x: Sha)
    requires Graph(c) && a in c && b in c
    ensures IsMergeBase(c, a, b, x)
  {
    MergeBaseExists(c, a, b);
    var x :| IsMergeBase(c, a, b, x);
    x
  }

  // ----- what a merge does

  datatype MergeResult = MergeResult(sha: Sha, conflicts: seq<string>)

  ghost predicate IsConflictList(base: Files, ours: Files, theirs: Files, conflicts: seq<string>) {
    && (forall p :: p in conflicts <==> ConflictAt(base, ours, theirs, p))
    && (forall i, j :: 0 <= i < j < |conflicts| ==> IdLess(conflicts[i], conflicts[j]))
  }

  /** The repository after merging source into target, and what the caller is told. */
  ghost predicate Merges(r: Repo, order: int, target: string, source: string, message: string,
                         res: MergeResult, after: Repo, afterOrder: int)
    requires RepoOk(r, order) && target in r.branches && source in r.branches
  {
    var ours, theirs := r.branches[target], r.branches[source];
    if ours == theirs then
      res == MergeResult(ours, []) && after == r && afterOrder == order
    else
      var b := r.commits[MergeBaseOf(r.commits, ours, theirs)].files;
      var o, t := r.commits[ours].files, r.commits[theirs].files;
      var c := NewCommit(order + 1, message, [ours, theirs], Merged(b, o, t));
      && IsConflictList(b, o, t, res.conflicts)
      && (if res.conflicts != [] then res.sha == NoSha && after == r && afterOrder == order
          else res.sha == c.sha && after == Advance(r, target, c) && afterOrder == order + 1)
  }

  /** Merging keeps the repository well formed and touches no branch but the target. */
  lemma MergesKeeps(r: Repo, order: int, target: string, source: string, message: string,
                    res: MergeResult, after: Repo, afterOrder: int)
    requires RepoOk(r, order) && target in r.branches && source in r.branches
    requires Merges(r, order, target, source, message, res, after, afterOrder)
    ensures RepoOk(after, afterOrder)
    ensures after.branches == r.branches[target := after.branches[target]]
    ensures forall s :: s in r.commits ==> s in after.commits && after.commits[s] == r.commits[s]
    ensures res.conflicts != [] ==> after == r
  {
    hide Graph;
    var ours, theirs := r.branches[target], r.branches[source];
    if ours != theirs && res.conflicts == [] {
      var b := r.commits[MergeBaseOf(r.commits, ours, theirs)].files;
      var c := NewCommit(order + 1, message, [ours, theirs], Merged(b, r.commits[ours].files, r.commits[theirs].files));
      AdvanceKeeps(r, order, target, c);
    } else {
      assert r.branches == r.branches[target := r.branches[target]];
    }
  }

  // ----- branches cut from one base

  ghost function Line(r: Repo, order: int, name: string): (a: set<Sha>)
    requires RepoOk(r, order) && name in r.branches
  {
    Ancestors(r.commits, r.branches[name])
  }

  /** The named branches all descend from base and share nothing but base's own history. */
  ghost predicate Cut(r: Repo, order: int, base: Sha, names: seq<string>)
    requires RepoOk(r, order)
  {
    && base in r.commits
    && (forall i :: 0 <= i < |names| ==> names[i] in r.branches && base in Line(r, order, names[i]))
    && (forall i, j :: 0 <= i < j < |names| ==>
          names[i] != names[j] && Line(r, order, names[i]) * Line(r, order, names[j]) <= Ancestors(r.commits, base))
  }

  /** Whatever shares only base's history with a line that contains base has it as merge base. */
  lemma BaseOfCut(c: Commits, tip: Sha, other: Sha, base: Sha)
    requires Graph(c) && tip in c && other in c && base in c
    requires base in Ancestors(c, tip) && base in Ancestors(c, other)
    requires Ancestors(c, tip) * Ancestors(c, other) <= Ancestors(c, base)
    ensures MergeBaseOf(c, tip, other) == base
    ensures tip == other ==> tip == base
  {
    var x := MergeBaseOf(c, tip, other);
    assert base in Common(c, tip, other);
    AncestorsAreOlder(c, base, x);
    if tip == other {
      assert tip in Ancestors(c, base);
      AncestorsAreOlder(c, base, tip);
      AncestorsAreOlder(c, tip, base);
    }
  }

  lemma CutBranch(r: Repo, order: int, base: Sha, names: seq<string>, name: string)
    requires RepoOk(r, order) && Cut(r, order, base, names) && name !in r.branches
    ensures RepoOk(r.(branches := r.branches[name := base]), order)
    ensures Cut(r.(branches := r.branches[name := base]), order, base, names + [name])
  {
    var after, all := r.(branches := r.branches[name := base]), names + [name];
    forall i | 0 <= i < |names|
      ensures names[i] in r.branches && names[i] != name && Line(after, order, names[i]) == Line(r, order, names[i])
    {
    }
    assert Line(after, order, name) == Ancestors(r.commits, base);
  }

  /** A commit on one branch changes that line by the new commit only. */
  lemma LineAfter(r: Repo, order: int, branch: string, c: Commit)
    requires RepoOk(r, order) && branch in r.branches && Extends(r.commits, order, c) &&
             c.parents == [r.branches[branch]]
    ensures RepoOk(Advance(r, branch, c), order + 1)
    ensures Line(Advance(r, branch, c), order + 1, branch) == Line(r, order, branch) + {c.sha}
    ensures forall b :: b in r.branches && b != branch ==>
              Line(Advance(r, branch, c), order + 1, b) == Line(r, order, b)
    ensures forall b :: b in r.branches ==> c.sha !in Line(r, order, b)
  {
    hide Graph, Ancestors;
    AdvanceKeeps(r, order, branch, c);
    NewTipAncestors(Advance(r, branch, c).commits, c.sha, r.branches[branch]);
    forall b | b in r.branches ensures c.sha !in Line(r, order, b) {
      if c.sha in Line(r, order, b) {
        AncestorsAreOlder(r.commits, r.branches[b], c.sha);
      }
    }
  }

  lemma NewTipAncestors(c: Commits, s: Sha, parent: Sha)
    requires Graph(c) && s in c && c[s].parents == [parent] && parent in c
    ensures Ancestors(c, s) == Ancestors(c, parent) + {s}
  {
  }

  lemma CutCommit(r: Repo, order: int, base: Sha, names: seq<string>, branch: string, c: Commit)
    requires RepoOk(r, order) && Cut(r, order, base, names)
    requires branch in r.branches && Extends(r.commits, order, c) && c.parents == [r.branches[branch]]
    ensures RepoOk(Advance(r, branch, c), order + 1)
    ensures Cut(Advance(r, branch, c), order + 1, base, names)
  {
    hide Graph, Ancestors, RepoOk;
    RepoParts(r, order);
    AdvanceKeeps(r, order, branch, c);
    LineAfter(r, order, branch, c);
    var after := Advance(r, branch, c);
    forall i, j | 0 <= i < j < |names|
      ensures names[i] != names[j]
      ensures Line(after, order + 1, names[i]) * Line(after, order + 1, names[j]) <= Ancestors(after.commits, base)
    {
      assert Line(r, order, names[i]) * Line(r, order, names[j]) <= Ancestors(r.commits, base);
    }
  }

  lemma RepoParts(r: Repo, order: int)
    requires RepoOk(r, order)
    ensures Graph(r.commits) && (forall b :: b in r.branches ==> r.branches[b] in r.commits)
  {
  }
}
