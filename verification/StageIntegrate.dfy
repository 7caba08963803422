/** The integration stage: task branches of one run are merged into a new branch. */
module StageIntegrate {
  import opened Base
  import opened CommitGraph
  import opened TreeMerge
  import opened Repository
  import opened Integration
  import opened Scm

  datatype Integrated = Integrated(head: Sha) | Conflicting(paths: seq<string>) | Failed(error: Error)

  /** A task branch with the message its merge is recorded under. */
  datatype TaskBranch = TaskBranch(branch: string, message: string)

  function Names(tasks: seq<TaskBranch>): (names: seq<string>)
    ensures |names| == |tasks| && forall i :: 0 <= i < |tasks| ==> names[i] == tasks[i].branch
  {
    seq(|tasks|, i requires 0 <= i < |tasks| => tasks[i].branch)
  }

  /** No branch but `own` moved and no commit was lost. */
  ghost predicate OnlyMoves(r: Repo, after: Repo, own: string) {
    && (forall b :: b in r.branches && b != own ==> b in after.branches && after.branches[b] == r.branches[b])
    && (forall b :: b in after.branches && b != own ==> b in r.branches)
    && (forall s :: s in r.commits ==> s in after.commits && after.commits[s] == r.commits[s])
  }

  ghost predicate Unmoved(r: Repo, after: Repo, branch: string) {
    branch in r.branches ==> branch in after.branches && after.branches[branch] == r.branches[branch]
  }

  lemma CreatingMovesOnly(r: Repo, own: string, base: Sha)
    requires own !in r.branches
    ensures OnlyMoves(r, r.(branches := r.branches[own := base]), own)
  {
  }

  lemma MovesNothing(r: Repo, own: string)
    ensures OnlyMoves(r, r, own)
  {
  }

  lemma OthersStay(r: Repo, after: Repo, own: string, branch: string)
    requires OnlyMoves(r, after, own) && branch != own
    ensures Unmoved(r, after, branch) && (branch in after.branches <==> branch in r.branches)
  {
  }

  /** What the stage can rely on before it starts. */
  predicate Ready(repos: map<string, Repo>, key: string, from: string, own: string, tasks: seq<TaskBranch>) {
    && key in repos && from in repos[key].branches && own !in repos[key].branches
    && forall i :: 0 <= i < |tasks| ==> tasks[i].branch == own || tasks[i].branch in repos[key].branches
  }

  /** The repository between two merges of the stage. */
  ghost predicate Midway(r0: Repo, order0: int, r: Repo, order: int, base: Sha, own: string,
                         names: seq<string>, k: nat, conflicts: seq<string>)
    requires RepoOk(r0, order0) && RepoOk(r, order) && Cut(r0, order0, base, names) && k <= |names|
  {
    && own !in names && own in r.branches && base in r.commits
    && r.commits[base] == r0.commits[base]
    && Cut(r, order, base, names)
    && Trees(r, order, names) == Trees(r0, order0, names)
    && Apart(r, order, base, r.branches[own], names, k)
    && Progress(r.commits[base].files, Trees(r, order, names), TipFiles(r, order, own), k, conflicts)
  }

  lemma MidwayStarts(r0: Repo, order: int, base: Sha, own: string, names: seq<string>)
    requires RepoOk(r0, order) && Cut(r0, order, base, names) && own !in r0.branches
    ensures RepoOk(r0.(branches := r0.branches[own := base]), order)
    ensures Midway(r0, order, r0.(branches := r0.branches[own := base]), order, base, own, names, 0, [])
  {
    hide Graph, Ancestors, Progress;
    var r := r0.(branches := r0.branches[own := base]);
    forall i | 0 <= i < |names|
      ensures names[i] in r0.branches && Line(r, order, names[i]) == Line(r0, order, names[i])
    {
    }
    ProgressStarts(r.commits[base].files, Trees(r, order, names));
  }

  lemma MidwaySteps(r0: Repo, order0: int, r: Repo, order: int, base: Sha, own: string, names: seq<string>, k: nat,
                    conflicts: seq<string>, message: string, res: MergeResult, after: Repo, afterOrder: int)
    requires RepoOk(r0, order0) && RepoOk(r, order) && Cut(r0, order0, base, names) && k < |names|
    requires Midway(r0, order0, r, order, base, own, names, k, conflicts)
    requires own in r.branches && names[k] in r.branches
    requires Merges(r, order, own, names[k], message, res, after, afterOrder)
    ensures RepoOk(after, afterOrder)
    ensures Midway(r0, order0, after, afterOrder, base, own, names, k + 1, conflicts + res.conflicts)
  {
    hide Graph, Ancestors, Progress, Merges, Apart, Tried, Line;
    MergeKeepsCut(r, order, base, names, own, names[k], message, res, after, afterOrder);
    MergeStaysApart(r, order, base, names, k, own, message, res, after, afterOrder);
    MergeComposes(r, order, base, names, k, own, message, res, after, afterOrder);
    ProgressSteps(r.commits[base].files, Trees(r, order, names), TipFiles(r, order, own), k, conflicts, res.conflicts);
  }

  /** What the stage reports for a base and the trees of the task branches. */
  ghost predicate Delivered(b: Files, trees: seq<Files>, out: Integrated, after: Repo) {
    match out
    case Integrated(head) =>
      && Compatible(b, trees)
      && head in after.commits && after.commits[head].files == Compose(b, b, trees)
      && IsOverlay(b, trees, after.commits[head].files)
    case Conflicting(paths) =>
      && !Compatible(b, trees)
      && paths != [] && forall p :: p in paths ==> Contested(b, trees, p)
    case Failed(_) => true
  }

  /** What the stage promises for task branches cut from one base. */
  ghost predicate Composed(r0: Repo, order0: int, base: Sha, names: seq<string>, out: Integrated, after: Repo)
    requires RepoOk(r0, order0) && Cut(r0, order0, base, names)
  {
    Delivered(r0.commits[base].files, Trees(r0, order0, names), out, after)
  }

  lemma MidwayEnds(r0: Repo, order0: int, r: Repo, order: int, base: Sha, own: string, names: seq<string>,
                   conflicts: seq<string>)
    requires RepoOk(r0, order0) && RepoOk(r, order) && Cut(r0, order0, base, names)
    requires Midway(r0, order0, r, order, base, own, names, |names|, conflicts)
    ensures own in r.branches
    ensures Composed(r0, order0, base, names,
                     if conflicts == [] then Integrated(r.branches[own]) else Conflicting(conflicts), r)
  {
    hide Graph, Ancestors, Progress;
    ProgressEnds(r.commits[base].files, Trees(r, order, names), TipFiles(r, order, own), conflicts);
  }

  lemma MergesMovesOnly(r0: Repo, r: Repo, order: int, own: string, source: string, message: string,
                        res: MergeResult, after: Repo, afterOrder: int)
    requires RepoOk(r, order) && own in r.branches && source in r.branches && OnlyMoves(r0, r, own)
    requires Merges(r, order, own, source, message, res, after, afterOrder)
    ensures OnlyMoves(r0, after, own) && own in after.branches && RepoOk(after, afterOrder)
  {
    hide Graph, Ancestors, Merges;
    MergesKeeps(r, order, own, source, message, res, after, afterOrder);
  }

  /** Creates the integration branch from the default branch and merges the task branches
      into it in the given order, collecting conflicts. */
  method Integrate(scm: Memory, key: string, defaultBranch: string, own: string, tasks: seq<TaskBranch>)
    returns (out: Integrated)
    requires scm.Valid()
    modifies scm
    ensures scm.Valid()
    ensures out.Failed? <==> !Ready(old(scm.repos), key, defaultBranch, own, tasks)
    ensures scm.repos.Keys == old(scm.repos).Keys
    ensures forall k :: k in old(scm.repos) && k != key ==> scm.repos[k] == old(scm.repos)[k]
    ensures key in old(scm.repos) ==> OnlyMoves(old(scm.repos)[key], scm.repos[key], own)
    ensures key in old(scm.repos) ==> Unmoved(old(scm.repos)[key], scm.repos[key], defaultBranch)
    ensures Ready(old(scm.repos), key, defaultBranch, own, tasks) &&
            Cut(old(scm.repos)[key], old(scm.order), old(scm.repos)[key].branches[defaultBranch], Names(tasks)) ==>
              Composed(old(scm.repos)[key], old(scm.order), old(scm.repos)[key].branches[defaultBranch], Names(tasks),
                       out, scm.repos[key])
  {
    hide Graph, Ancestors, RepoOk, Merges, Midway, Composed, Cut, OnlyMoves;
    if key in scm.repos {
      MovesNothing(scm.repos[key], own);
    }
    var created := scm.CreateBranch(key, own, defaultBranch);
    if created.Err? {
      return Failed(created.error);
    }
    ghost var r0, order0, names := old(scm.repos)[key], old(scm.order), Names(tasks);
    ghost var base := r0.branches[defaultBranch];
    ghost var cut := Cut(r0, order0, base, names);
    CreatingMovesOnly(r0, own, base);
    if cut {
      MidwayStarts(r0, order0, base, own, names);
    }
    var conflicts := [];
    var i := 0;
    while i < |tasks|
      invariant 0 <= i <= |tasks|
      invariant scm.Valid() && scm.repos.Keys == old(scm.repos).Keys
      invariant forall k :: k in old(scm.repos) && k != key ==> scm.repos[k] == old(scm.repos)[k]
      invariant OnlyMoves(r0, scm.repos[key], own) && own in scm.repos[key].branches
      invariant forall j :: 0 <= j < i ==> tasks[j].branch == own || tasks[j].branch in r0.branches
      invariant cut ==> Midway(r0, order0, scm.repos[key], scm.order, base, own, names, i, conflicts)
    {
      ghost var r, order := scm.repos[key], scm.order;
      if tasks[i].branch != own {
        OthersStay(r0, r, own, tasks[i].branch);
      }
      var res := scm.Merge(key, own, tasks[i].branch, tasks[i].message);
      if res.Err? {
        OthersStay(r0, r, own, defaultBranch);
        return Failed(res.error);
      }
      MergesMovesOnly(r0, r, order, own, tasks[i].branch, tasks[i].message, res.value, scm.repos[key], scm.order);
      if cut {
        MidwaySteps(r0, order0, r, order, base, own, names, i, conflicts, tasks[i].message, res.value,
                    scm.repos[key], scm.order);
      }
      conflicts := conflicts + res.value.conflicts;
      i := i + 1;
    }
    OthersStay(r0, scm.repos[key], own, defaultBranch);
    if cut {
      MidwayEnds(r0, order0, scm.repos[key], scm.order, base, own, names, conflicts);
    }
    if conflicts != [] {
      return Conflicting(conflicts);
    }
    var head := scm.Head(key, own);
    return Integrated(head.value);
  }
}
