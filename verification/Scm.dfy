/** The in-memory SCM driver: repositories by key, branches, commits and three-way merges. */
module Scm {
  import opened Base
  import opened CommitGraph
  import opened TreeMerge
  import opened Repository

  /** Changes handed to a commit; None deletes a file. */
  type ChangeSet = map<string, Option<seq<byte>>>

  predicate HasDots(s: string)
    decreases |s|
  {
    |s| >= 2 && (s[..2] == ".." || HasDots(s[1..]))
  }

  lemma {:induction false} DotsAnywhere(s: string)
    ensures HasDots(s) <==> exists i :: 0 <= i < |s| - 1 && s[i] == '.' == s[i + 1]
    decreases |s|
  {
    if |s| >= 2 {
      DotsAnywhere(s[1..]);
      assert s[..2] == ".." <==> s[0] == '.' == s[1];
      assert forall i :: 1 <= i < |s| - 1 ==> s[i] == s[1..][i - 1] && s[i + 1] == s[1..][i];
      if exists i :: 0 <= i < |s| - 1 && s[i] == '.' == s[i + 1] {
        var i :| 0 <= i < |s| - 1 && s[i] == '.' == s[i + 1];
        if i > 0 {
          assert s[1..][i - 1] == '.' == s[1..][i - 1 + 1];
        }
      }
      if exists j :: 0 <= j < |s[1..]| - 1 && s[1..][j] == '.' == s[1..][j + 1] {
        var j :| 0 <= j < |s[1..]| - 1 && s[1..][j] == '.' == s[1..][j + 1];
        assert s[j + 1] == '.' == s[j + 1 + 1];
      }
    }
  }

  /** Relative, contained, not empty. */
  predicate SafePath(path: string) {
    && !("/" <= path) && !HasDots(path) && '\\' !in path
    && (if "./" <= path then path[2..] else path) != ""
  }

  /** A path is refused exactly when it is empty, only "./", absolute, or has two dots in a row or a
      backslash anywhere. */
  lemma SafePathIff(path: string)
    ensures SafePath(path) <==>
              && path != [] && path != ['.', '/'] && path[0] != '/'
              && (forall i :: 0 <= i < |path| ==> path[i] != '\\')
              && (forall i :: 0 <= i < |path| - 1 ==> !(path[i] == '.' == path[i + 1]))
  {
    DotsAnywhere(path);
    assert "./" <= path <==> |path| >= 2 && path[0] == '.' && path[1] == '/';
    assert "/" <= path <==> |path| >= 1 && path[0] == '/';
    if "./" <= path && path[2..] == "" {
      assert path == ['.', '/'];
    }
  }

  /** A tree with a change set applied. */
  function Overlaid(tree: Files, changes: ChangeSet): (r: Files) {
    map p | p in tree.Keys + changes.Keys && (p in changes ==> changes[p].Some?) ::
      if p in changes then changes[p].value else tree[p]
  }

  /** The loop that applies a change set, refusing unsafe paths. */
  method ApplyChanges(files: Files, changes: ChangeSet) returns (out: Outcome<Files>)
    ensures out.Ok? <==> forall p :: p in changes ==> SafePath(p)
    ensures out.Ok? ==> out.value == Overlaid(files, changes)
  {
    hide SafePath, Overlaid;
    OverlaidNone(files, changes);
    var tree, rest := files, changes.Keys;
    while rest != {}
      invariant rest <= changes.Keys
      invariant tree == Overlaid(files, changes - rest)
      invariant forall p :: p in changes && p !in rest ==> SafePath(p)
      decreases |rest|
    {
      var p :| p in rest;
      if !SafePath(p) {
        return Err(Invalid("scm_path"));
      }
      OverlaidOne(files, changes, rest, p);
      tree := match changes[p] case None => tree - {p} case Some(content) => tree[p := content];
      rest := rest - {p};
    }
    assert changes - rest == changes;
    return Ok(tree);
  }

  lemma OverlaidNone(files: Files, changes: ChangeSet)
    ensures files == Overlaid(files, changes - changes.Keys)
  {
  }

  /** Applying one more change. */
  lemma OverlaidOne(files: Files, changes: ChangeSet, rest: set<string>, p: string)
    requires p in rest && rest <= changes.Keys
    ensures Overlaid(files, changes - (rest - {p})) ==
              match changes[p]
              case None => Overlaid(files, changes - rest) - {p}
              case Some(content) => Overlaid(files, changes - rest)[p := content]
  {
    var before, after := changes - rest, changes - (rest - {p});
    assert forall q :: q in after <==> q in before || q == p;
    assert forall q :: q in before ==> after[q] == before[q] == changes[q];
  }

  class Memory {
    var repos: map<string, Repo>
    var order: int

    ghost predicate Valid()
      reads this
    {
      order >= 0 && forall k :: k in repos ==> RepoOk(repos[k], order)
    }

    constructor ()
      ensures Valid() && repos == map[] && order == 0
    {
      repos, order := map[], 0;
    }

    /** Creates a repository whose only branch, the default one, holds the seed files. */
    method Init(key: string, defaultBranch: string, files: Files) returns (out: Outcome<()>)
      requires Valid()
      modifies this
      ensures Valid()
      ensures out.Err? <==> defaultBranch == "" || key in old(repos)
      ensures out.Err? ==> repos == old(repos) && order == old(order)
      ensures out.Ok? ==> order == old(order) + 1
      ensures out.Ok? ==>
                repos == old(repos)[key := Seeded(defaultBranch, NewCommit(order, "seed " + key, [], files))]
    {
      hide RepoOk;
      if defaultBranch == "" {
        return Err(Invalid("scm_seed_branch"));
      }
      if key in repos {
        return Err(Conflict("scm_repo_exists"));
      }
      SeededOk(defaultBranch, order, "seed " + key, files);
      StillOk(repos, order);
      order := order + 1;
      repos := repos[key := Seeded(defaultBranch, NewCommit(order, "seed " + key, [], files))];
      return Ok(());
    }

    method Head(key: string, branch: string) returns (out: Outcome<Sha>)
      requires Valid()
      ensures out.Ok? <==> key in repos && branch in repos[key].branches
      ensures out.Ok? ==> out.value == repos[key].branches[branch] && out.value in repos[key].commits
    {
      if key !in repos || branch !in repos[key].branches {
        return Err(NotFound);
      }
      return Ok(repos[key].branches[branch]);
    }

    method CreateBranch(key: string, name: string, from: string) returns (out: Outcome<()>)
      requires Valid()
      modifies this`repos
      ensures Valid()
      ensures out.Ok? <==> key in old(repos) && from in old(repos)[key].branches && name !in old(repos)[key].branches
      ensures out.Err? ==> repos == old(repos)
      ensures out.Ok? ==> repos == old(repos)[key := old(repos)[key].(
                branches := old(repos)[key].branches[name := old(repos)[key].branches[from]])]
    {
      if key !in repos || from !in repos[key].branches {
        return Err(NotFound);
      }
      var r := repos[key];
      if name in r.branches {
        return Err(Conflict("scm_branch_exists"));
      }
      repos := repos[key := r.(branches := r.branches[name := r.branches[from]])];
      return Ok(());
    }

    /** Commits the overlaid tree on the branch; one unsafe path refuses the whole commit. */
    method CommitFiles(key: string, branch: string, message: string, changes: ChangeSet) returns (out: Outcome<Sha>)
      requires Valid()
      modifies this
      ensures Valid()
      ensures out.Ok? <==>
                key in old(repos) && branch in old(repos)[key].branches && forall p :: p in changes ==> SafePath(p)
      ensures out.Err? ==> repos == old(repos) && order == old(order)
      ensures out.Ok? ==> key in repos && repos == old(repos)[key := repos[key]] && order == old(order) + 1
      ensures out.Ok? ==> Committed(old(repos)[key], old(order), branch, message, changes, out.value, repos[key])
    {
      hide Graph;
      if key !in repos || branch !in repos[key].branches {
        return Err(NotFound);
      }
      var r := repos[key];
      var tip := r.branches[branch];
      RepoParts(r, order);
      var tree := ApplyChanges(r.commits[tip].files, changes);
      if tree.Err? {
        return Err(tree.error);
      }
      var c := NewCommit(order + 1, message, [tip], tree.value);
      AdvanceKeeps(r, order, branch, c);
      StillOk(repos, order);
      order := order + 1;
      repos := repos[key := Advance(r, branch, c)];
      return Ok(c.sha);
    }

    /** Three-way merge of source into target. A conflicting merge reports every
        conflicting path and leaves the repository as it was. */
    method Merge(key: string, target: string, source: string, message: string) returns (out: Outcome<MergeResult>)
      requires Valid()
      modifies this
      ensures Valid()
      ensures out.Ok? <==>
                key in old(repos) && target in old(repos)[key].branches && source in old(repos)[key].branches
      ensures out.Err? ==> repos == old(repos) && order == old(order)
      ensures out.Ok? ==> key in repos && repos == old(repos)[key := repos[key]]
      ensures out.Ok? ==> Merges(old(repos)[key], old(order), target, source, message, out.value, repos[key], order)
    {
      hide Graph, Ancestors, IsMerge;
      if key !in repos || target !in repos[key].branches || source !in repos[key].branches {
        return Err(NotFound);
      }
      var r := repos[key];
      var ours, theirs := r.branches[target], r.branches[source];
      RepoParts(r, order);
      assert repos == repos[key := r];
      if ours == theirs {
        return Ok(MergeResult(ours, []));
      }
      var base := MergeBase(r.commits, ours, theirs);
      MergeBaseIsUnique(r.commits, ours, theirs, base);
      var b, o, t := r.commits[base].files, r.commits[ours].files, r.commits[theirs].files;
      var merged, conflicts := MergeFiles(b, o, t);
      MergeIsUnique(b, o, t, merged);
      if conflicts != [] {
        return Ok(MergeResult(NoSha, conflicts));
      }
      var c := NewCommit(order + 1, message, [ours, theirs], merged);
      AdvanceKeeps(r, order, target, c);
      StillOk(repos, order);
      order := order + 1;
      repos := repos[key := Advance(r, target, c)];
      return Ok(MergeResult(c.sha, []));
    }
  }

  ghost predicate Committed(r: Repo, order: int, branch: string, message: string, changes: ChangeSet,
                            sha: Sha, after: Repo)
  {
    && branch in r.branches && r.branches[branch] in r.commits
    && var tip := r.branches[branch];
       var c := NewCommit(order + 1, message, [tip], Overlaid(r.commits[tip].files, changes));
       sha == c.sha && after == Advance(r, branch, c)
  }

  lemma MergeBaseIsUnique(c: Commits, a: Sha, b: Sha, x: Sha)
    requires Graph(c) && a in c && b in c && IsMergeBase(c, a, b, x)
    ensures x == MergeBaseOf(c, a, b)
  {
    MergeBaseIsBest(c, a, b, x, x);
    MergeBaseIsBest(c, b, a, x, MergeBaseOf(c, a, b));
  }

  lemma StillOk(repos: map<string, Repo>, order: int)
    requires forall k :: k in repos ==> RepoOk(repos[k], order)
    ensures forall k :: k in repos ==> RepoOk(repos[k], order + 1)
  {
  }

  lemma MergeIsUnique(base: Files, ours: Files, theirs: Files, m: Files)
    requires IsMerge(base, ours, theirs, m)
    ensures m == Merged(base, ours, theirs)
  {
    var r := Merged(base, ours, theirs);
    forall p ensures Entry(m, p) == Entry(r, p) {
      assert Entry(m, p) == MergedEntry(base, ours, theirs, p);
      assert Entry(r, p) == MergedEntry(base, ours, theirs, p);
    }
    assert forall p :: (p in m <==> Entry(m, p).Some?) && (p in r <==> Entry(r, p).Some?);
    forall p | p in m ensures m[p] == r[p] {
      assert Entry(m, p) == Entry(r, p);
    }
  }
}
