/** One run's repository from its seed to the integrated tree: tasks cut branches and commit
    to them in any interleaving, then the integration stage merges them. */
module RunRepository {
  import opened CommitGraph
  import opened TreeMerge
  import opened Repository
  import opened Integration
  import opened Scm
  import opened StageIntegrate

  /** What happens between the seed and the integration: a task cuts its branch from the
      default branch, a task commits to a branch that was cut, or the driver numbers a
      commit of another run's repository. */
  datatype Step = Begin(name: string) | Change(name: string, message: string, changes: ChangeSet) | Elsewhere

  datatype Work = Work(repo: Repo, order: int, names: seq<string>)

  /** The driver's CreateBranch and CommitFiles; a refused call changes nothing. */
  ghost function After(w: Work, s: Step): (after: Work)
    requires RepoOk(w.repo, w.order) && w.repo.defaultBranch in w.repo.branches
  {
    match s
    case Begin(name) =>
      if name in w.repo.branches then w
      else
        Work(w.repo.(branches := w.repo.branches[name := w.repo.branches[w.repo.defaultBranch]]), w.order,
             w.names + [name])
    case Change(name, message, changes) =>
      if name !in w.names || name !in w.repo.branches || exists p :: p in changes && !SafePath(p) then w
      else
        Work(Advance(w.repo, name, NewCommit(w.order + 1, message, [w.repo.branches[name]],
                                             Overlaid(w.repo.commits[w.repo.branches[name]].files, changes))),
             w.order + 1, w.names)
    case Elsewhere => w.(order := w.order + 1)
  }

  ghost predicate CutFrom(w: Work, base: Sha) {
    && RepoOk(w.repo, w.order) && Cut(w.repo, w.order, base, w.names)
    && w.repo.defaultBranch in w.repo.branches && w.repo.branches[w.repo.defaultBranch] == base
    && w.repo.defaultBranch !in w.names
  }

  lemma LaterStillCut(r: Repo, order: int, base: Sha, names: seq<string>)
    requires RepoOk(r, order) && Cut(r, order, base, names)
    ensures RepoOk(r, order + 1) && Cut(r, order + 1, base, names)
  {
    hide Graph, Ancestors;
    assert forall i :: 0 <= i < |names| ==> Line(r, order + 1, names[i]) == Line(r, order, names[i]);
  }

  lemma StepKeepsCut(w: Work, base: Sha, s: Step)
    requires CutFrom(w, base)
    ensures CutFrom(After(w, s), base) && After(w, s).repo.defaultBranch == w.repo.defaultBranch
    ensures base in After(w, s).repo.commits && After(w, s).repo.commits[base] == w.repo.commits[base]
  {
    hide Graph, Ancestors, Overlaid, SafePath, Line;
    match s {
      case Begin(name) =>
        if name !in w.repo.branches {
          CutBranch(w.repo, w.order, base, w.names, name);
        }
      case Change(name, message, changes) =>
        if After(w, s) != w {
          var tip := w.repo.branches[name];
          var c := NewCommit(w.order + 1, message, [tip], Overlaid(w.repo.commits[tip].files, changes));
          CutCommit(w.repo, w.order, base, w.names, name, c);
          AdvanceKeeps(w.repo, w.order, name, c);
        }
      case Elsewhere =>
        LaterStillCut(w.repo, w.order, base, w.names);
    }
  }

  ghost function AfterAll(w: Work, base: Sha, steps: seq<Step>): (after: Work)
    requires CutFrom(w, base)
    ensures CutFrom(after, base) && base in w.repo.commits
    ensures base in after.repo.commits && after.repo.commits[base] == w.repo.commits[base]
    ensures after.repo.defaultBranch == w.repo.defaultBranch
    decreases |steps|
  {
    if steps == [] then w
    else
      StepKeepsCut(w, base, steps[0]);
      AfterAll(After(w, steps[0]), base, steps[1..])
  }

  /** The repository of a run seeded as commit number `order + 1`, after its steps. */
  ghost function Worked(defaultBranch: string, order: int, message: string, files: Files, steps: seq<Step>): (w: Work)
    requires order >= 0
    ensures var seed := NewCommit(order + 1, message, [], files).sha;
            CutFrom(w, seed) && seed in w.repo.commits && w.repo.commits[seed].files == files
    ensures w.repo.defaultBranch == defaultBranch
  {
    SeededOk(defaultBranch, order, message, files);
    var seed := NewCommit(order + 1, message, [], files);
    AfterAll(Work(Seeded(defaultBranch, seed), order + 1, []), seed.sha, steps)
  }

  /** Distinct branches, all of them cut, in any order. */
  ghost predicate Picked(picked: seq<string>, names: seq<string>) {
    && (forall i, j :: 0 <= i < j < |picked| ==> picked[i] != picked[j])
    && (forall i :: 0 <= i < |picked| ==> picked[i] in names)
  }

  /** Being cut from one base does not depend on the order of the branches. */
  lemma CutInAnyOrder(r: Repo, order: int, base: Sha, names: seq<string>, picked: seq<string>)
    requires RepoOk(r, order) && Cut(r, order, base, names) && Picked(picked, names)
    ensures Cut(r, order, base, picked)
  {
    hide Graph, Ancestors;
    forall i, j | 0 <= i < j < |picked|
      ensures picked[i] in r.branches && picked[j] in r.branches
      ensures Line(r, order, picked[i]) * Line(r, order, picked[j]) <= Ancestors(r.commits, base)
    {
      var k :| 0 <= k < |names| && names[k] == picked[i];
      var l :| 0 <= l < |names| && names[l] == picked[j];
      var lo, hi := if k < l then k else l, if k < l then l else k;
      assert Line(r, order, names[lo]) * Line(r, order, names[hi]) <= Ancestors(r.commits, base);
    }
  }

  /** However the tasks of a freshly seeded run interleave, their branches in any order are
      cut from the seed commit, the default branch stays on it and it keeps the seed files. */
  lemma TaskBranchesAreCut(defaultBranch: string, order: int, message: string, files: Files, steps: seq<Step>,
                           picked: seq<string>)
    requires order >= 0 && Picked(picked, Worked(defaultBranch, order, message, files, steps).names)
    ensures var w := Worked(defaultBranch, order, message, files, steps);
            && defaultBranch in w.repo.branches
            && var base := w.repo.branches[defaultBranch];
               Cut(w.repo, w.order, base, picked) && w.repo.commits[base].files == files
  {
    hide AfterAll;
    var w := Worked(defaultBranch, order, message, files, steps);
    CutInAnyOrder(w.repo, w.order, w.repo.branches[defaultBranch], w.names, picked);
  }

  /** A task's step is the driver's call: on the repository of the run it has the effect of
      After, and it leaves every other repository alone. */
  method Perform(scm: Memory, key: string, s: Step, ghost w: Work, ghost base: Sha)
    requires scm.Valid() && !s.Elsewhere? && (s.Change? ==> s.name in w.names)
    requires key in scm.repos && scm.repos[key] == w.repo && scm.order == w.order && CutFrom(w, base)
    modifies scm
    ensures scm.Valid()
    ensures scm.repos == old(scm.repos)[key := After(w, s).repo] && scm.order == After(w, s).order
  {
    hide Graph, Ancestors, Overlaid, SafePath, Cut;
    assert scm.repos == scm.repos[key := w.repo];
    match s {
      case Begin(name) =>
        var _ := scm.CreateBranch(key, name, scm.repos[key].defaultBranch);
      case Change(name, message, changes) =>
        var _ := scm.CommitFiles(key, name, message, changes);
    }
  }

  /** The integration of a run that was seeded with `files` and worked on in any way. It fails
      exactly when the integration branch exists or a task branch does not; for branches the
      tasks cut, in any order, it reports a conflict exactly when their changes to the seed are
      incompatible, and otherwise ends on the seed overlaid with all of them. */
  method IntegrateRun(scm: Memory, key: string, defaultBranch: string, own: string, tasks: seq<TaskBranch>,
                      ghost order: int, ghost message: string, ghost files: Files, ghost steps: seq<Step>)
    returns (out: Integrated)
    requires scm.Valid() && order >= 0 && key in scm.repos
    requires var w := Worked(defaultBranch, order, message, files, steps);
             scm.repos[key] == w.repo && scm.order == w.order
    modifies scm
    ensures scm.Valid() && scm.repos.Keys == old(scm.repos).Keys
    ensures var w := Worked(defaultBranch, order, message, files, steps);
            && (out.Failed? <==>
                  own in w.repo.branches ||
                  exists i :: 0 <= i < |tasks| && tasks[i].branch != own && tasks[i].branch !in w.repo.branches)
            && OnlyMoves(w.repo, scm.repos[key], own)
    ensures var w := Worked(defaultBranch, order, message, files, steps);
            Picked(Names(tasks), w.names) ==>
              Delivered(files, Trees(w.repo, w.order, Names(tasks)), out, scm.repos[key])
  {
    hide AfterAll, Worked, Cut, OnlyMoves, Compatible, Compose, IsOverlay, Graph, Ancestors, Picked, Names;
    ghost var w := Worked(defaultBranch, order, message, files, steps);
    out := Integrate(scm, key, defaultBranch, own, tasks);
    if Picked(Names(tasks), w.names) {
      TaskBranchesAreCut(defaultBranch, order, message, files, steps, Names(tasks));
    }
  }
}
