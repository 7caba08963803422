/** The commit graph of the in-memory SCM driver and its merge-base walk. */
module CommitGraph {

  newtype byte = x: int | 0 <= x < 256

  /** A stored tree. The driver stores empty contents as nil slices, so an empty
      sequence stands for nil. */
  type Files = map<string, seq<byte>>

  /** A collision-free digest of exactly the data that is hashed; the creation
      sequence is part of it. */
  datatype Sha = NoSha | Digest(order: int, parents: seq<Sha>, message: string, files: Files)

  datatype Commit = Commit(sha: Sha, parents: seq<Sha>, order: int, files: Files)

  type Commits = map<Sha, Commit>

  ghost predicate CommitOk(c: Commits, s: Sha)
    requires s in c
  {
    && s.Digest? && c[s].sha == s && c[s].order == s.order >= 1
    && forall p :: p in c[s].parents ==> p in c && c[p].order < c[s].order
  }

  /** Parents exist and are older, creation numbers are unique, one commit is the root. */
  ghost predicate Graph(c: Commits) {
    && (forall s :: s in c ==> CommitOk(c, s))
    && (forall s, t :: s in c && t in c && c[s].order == c[t].order ==> s == t)
    && (forall s, t :: s in c && t in c && c[s].parents == [] && c[t].parents == [] ==> s == t)
  }

  /** s itself and everything it descends from. */
  ghost function Ancestors(c: Commits, s: Sha): (r: set<Sha>)
    requires Graph(c) && s in c
    ensures s in r
    decreases c[s].order
  {
    assert CommitOk(c, s);
    {s} + set p, a | p in c[s].parents && a in Ancestors(c, p) :: a
  }

  lemma {:induction false} AncestorsAreOlder(c: Commits, s: Sha, a: Sha)
    requires Graph(c) && s in c && a in Ancestors(c, s)
    ensures a in c && (a == s || c[a].order < c[s].order)
    decreases c[s].order
  {
    assert CommitOk(c, s);
    if a != s {
      var p :| p in c[s].parents && a in Ancestors(c, p);
      AncestorsAreOlder(c, p, a);
    }
  }

  lemma {:induction false} AncestorsTransitive(c: Commits, s: Sha, b: Sha, a: Sha)
    requires Graph(c) && s in c && b in Ancestors(c, s) && b in c && a in Ancestors(c, b)
    ensures a in Ancestors(c, s)
    decreases c[s].order
  {
    assert CommitOk(c, s);
    if b != s {
      var p :| p in c[s].parents && b in Ancestors(c, p);
      AncestorsTransitive(c, p, b, a);
    }
  }

  /** A set that contains s and the parents of its members contains all ancestors of s. */
  lemma {:induction false} ClosedHoldsAncestors(c: Commits, s: Sha, seen: set<Sha>, a: Sha)
    requires Graph(c) && s in c && s in seen && a in Ancestors(c, s)
    requires forall v, p :: v in seen && v in c && p in c[v].parents ==> p in seen
    ensures a in seen
    decreases c[s].order
  {
    assert CommitOk(c, s);
    if a != s {
      var p :| p in c[s].parents && a in Ancestors(c, p);
      ClosedHoldsAncestors(c, p, seen, a);
    }
  }

  /** Every commit descends from a commit without parents. */
  lemma {:induction false} RootExists(c: Commits, s: Sha) returns (root: Sha)
    requires Graph(c) && s in c
    ensures root in c && c[root].parents == [] && root in Ancestors(c, s)
    decreases c[s].order
  {
    assert CommitOk(c, s);
    if c[s].parents == [] {
      root := s;
    } else {
      var p := c[s].parents[0];
      root := RootExists(c, p);
    }
  }

  ghost function Common(c: Commits, a: Sha, b: Sha): (r: set<Sha>)
    requires Graph(c) && a in c && b in c
  {
    Ancestors(c, a) * Ancestors(c, b)
  }

  /** x is the youngest common ancestor. */
  ghost predicate IsMergeBase(c: Commits, a: Sha, b: Sha, x: Sha)
    requires Graph(c) && a in c && b in c
  {
    x in Common(c, a, b) && x in c && forall y :: y in Common(c, a, b) ==> y in c && c[y].order <= c[x].order
  }

  lemma OrdersArePositive(c: Commits, s: Sha)
    requires Graph(c) && s in c
    ensures c[s].order >= 1
  {
    assert CommitOk(c, s);
  }

  lemma ParentsOf(c: Commits, start: Sha, s: Sha, p: Sha)
    requires Graph(c) && start in c && s in c && s in Ancestors(c, start) && p in c[s].parents
    ensures p in c && p in Ancestors(c, start)
  {
    assert CommitOk(c, s);
    assert p in Ancestors(c, s);
    AncestorsTransitive(c, start, s, p);
  }

  /** State of a depth-first walk from start: visited commits and the work left. */
  ghost predicate Walking(c: Commits, start: Sha, seen: set<Sha>, stack: seq<Sha>)
    requires Graph(c) && start in c
  {
    && seen <= Ancestors(c, start) && seen <= c.Keys
    && (forall s :: s in stack ==> s in Ancestors(c, start) && s in c)
    && (start in seen || start in stack)
    && (forall v, p :: v in seen && v in c && p in c[v].parents ==> p in seen || p in stack)
  }

  /** Popping a commit that was already visited. */
  lemma WalkSkips(c: Commits, start: Sha, seen: set<Sha>, stack: seq<Sha>)
    requires Graph(c) && start in c && Walking(c, start, seen, stack) && |stack| > 0
    requires stack[|stack| - 1] in seen
    ensures Walking(c, start, seen, stack[..|stack| - 1])
  {
    hide Ancestors, Graph;
    var rest, cur := stack[..|stack| - 1], stack[|stack| - 1];
    assert forall s :: s in stack <==> s in rest || s == cur by { assert stack == rest + [cur]; }
  }

  /** Visiting a commit and pushing its parents. */
  lemma WalkVisits(c: Commits, start: Sha, seen: set<Sha>, stack: seq<Sha>)
    requires Graph(c) && start in c && Walking(c, start, seen, stack) && |stack| > 0
    requires stack[|stack| - 1] !in seen
    ensures stack[|stack| - 1] in c
    ensures Walking(c, start, seen + {stack[|stack| - 1]}, stack[..|stack| - 1] + c[stack[|stack| - 1]].parents)
    ensures |c.Keys - (seen + {stack[|stack| - 1]})| < |c.Keys - seen|
  {
    hide Ancestors, Graph;
    var rest, cur := stack[..|stack| - 1], stack[|stack| - 1];
    assert forall s :: s in stack <==> s in rest || s == cur by { assert stack == rest + [cur]; }
    forall p | p in c[cur].parents ensures p in c && p in Ancestors(c, start) {
      ParentsOf(c, start, cur, p);
    }
    assert c.Keys - (seen + {cur}) == (c.Keys - seen) - {cur};
  }

  /** A finished walk has visited exactly the ancestors. */
  lemma WalkEnds(c: Commits, start: Sha, seen: set<Sha>)
    requires Graph(c) && start in c && Walking(c, start, seen, [])
    ensures seen == Ancestors(c, start)
  {
    forall a | a in Ancestors(c, start) ensures a in seen {
      ClosedHoldsAncestors(c, start, seen, a);
    }
  }

  /** The depth-first walk that collects all ancestors of a commit. */
  method Walk(c: Commits, start: Sha) returns (seen: set<Sha>)
    requires Graph(c) && start in c
    ensures seen == Ancestors(c, start)
  {
    hide Ancestors, Graph;
    seen := {};
    var stack := [start];
    assert start in stack;
    while |stack| > 0
      invariant Walking(c, start, seen, stack)
      decreases |c.Keys - seen|, |stack|
    {
      var cur := stack[|stack| - 1];
      if cur in seen {
        WalkSkips(c, start, seen, stack);
        stack := stack[..|stack| - 1];
      } else {
        WalkVisits(c, start, seen, stack);
        seen, stack := seen + {cur}, stack[..|stack| - 1] + c[cur].parents;
      }
    }
    WalkEnds(c, start, seen);
  }

  /** The driver's merge base: collect the ancestors of b, then walk those of a and
      keep the common one created last. */
  method MergeBase(c: Commits, a: Sha, b: Sha) returns (best: Sha)
    requires Graph(c) && a in c && b in c
    ensures IsMergeBase(c, a, b, best)
  {
    hide Ancestors, Graph;
    var ancestorsOfB := Walk(c, b);
    best := NoSha;
    var bestOrder := -1;
    var stack := [a];
    var seen: set<Sha> := {};
    assert a in stack;
    while |stack| > 0
      invariant Walking(c, a, seen, stack)
      invariant bestOrder == -1 ==> seen !! ancestorsOfB
      invariant bestOrder != -1 ==> best in seen && best in ancestorsOfB && best in c && c[best].order == bestOrder
      invariant forall y :: y in seen && y in ancestorsOfB ==> c[y].order <= bestOrder
      decreases |c.Keys - seen|, |stack|
    {
      var cur := stack[|stack| - 1];
      if cur in seen {
        WalkSkips(c, a, seen, stack);
        stack := stack[..|stack| - 1];
      } else {
        WalkVisits(c, a, seen, stack);
        OrdersArePositive(c, cur);
        seen := seen + {cur};
        if cur in ancestorsOfB && c[cur].order > bestOrder {
          best := cur;
          bestOrder := c[cur].order;
        }
        stack := stack[..|stack| - 1] + c[cur].parents;
      }
    }
    WalkEnds(c, a, seen);
    CommonIsNotEmpty(c, a, b);
  }

  // ----- what a merge base is

  /** Two commits of one repository always share an ancestor: the root. */
  lemma CommonIsNotEmpty(c: Commits, a: Sha, b: Sha)
    requires Graph(c) && a in c && b in c
    ensures Common(c, a, b) != {}
  {
    var x := RootExists(c, a);
    var y := RootExists(c, b);
    assert x in Common(c, a, b);
  }

  /** The merge base is unique, does not depend on the argument order, and no other
      common ancestor descends from it. */
  lemma MergeBaseIsBest(c: Commits, a: Sha, b: Sha, x: Sha, y: Sha)
    requires Graph(c) && a in c && b in c && IsMergeBase(c, a, b, x)
    ensures IsMergeBase(c, b, a, y) ==> y == x
    ensures IsMergeBase(c, b, a, x)
    ensures y in Common(c, a, b) && y in c && x in Ancestors(c, y) ==> y == x
  {
    assert Common(c, a, b) == Common(c, b, a);
    if y in Common(c, a, b) && y in c && x in Ancestors(c, y) {
      AncestorsAreOlder(c, y, x);
    }
  }

  /** If a is an ancestor of b then a is their merge base. */
  lemma AncestorIsBase(c: Commits, a: Sha, b: Sha)
    requires Graph(c) && a in c && b in c && a in Ancestors(c, b)
    ensures IsMergeBase(c, a, b, a)
  {
    forall y | y in Common(c, a, b) ensures y in c && c[y].order <= c[a].order {
      AncestorsAreOlder(c, a, y);
    }
  }
}
