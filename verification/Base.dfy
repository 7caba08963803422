/** Shared vocabulary: optional values, the (instant, identifier) order that the
    stores sort by, and a sort whose result is pinned down by that order. */
module Base {

  datatype Option<+T> = None | Some(value: T)

  /** The error kinds of the stores and drivers. */
  datatype Error = Invalid(code: string) | NotFound | Conflict(code: string)

  datatype Outcome<+T> = Ok(value: T) | Err(error: Error)

  function Min(a: int, b: int): (m: int) {
    if a < b then a else b
  }

  /** Byte-wise order on identifiers. */
  predicate IdLess(a: string, b: string) {
    b != [] && (a == [] || a[0] < b[0] || (a[0] == b[0] && IdLess(a[1..], b[1..])))
  }

  lemma {:induction false} IdLessTotal(a: string, b: string)
    ensures IdLess(a, b) || a == b || IdLess(b, a)
    ensures !(IdLess(a, b) && IdLess(b, a))
    ensures !IdLess(a, a)
  {
    if a != [] {
      IdLessTotal(a[1..], a[1..]);
      if b != [] {
        IdLessTotal(a[1..], b[1..]);
        if a[0] == b[0] && a[1..] == b[1..] {
          assert a == [a[0]] + a[1..] && b == [b[0]] + b[1..];
        }
      }
    }
  }

  /** The order is decided at the first difference; a proper prefix comes first. */
  lemma {:induction false} IdLessIff(a: string, b: string)
    ensures IdLess(a, b) <==>
              exists i :: 0 <= i <= |a| && i < |b| && a[..i] == b[..i] && (i == |a| || a[i] < b[i])
    decreases |a|
  {
    if a == [] {
      assert b != [] ==> a[..0] == b[..0];
    } else if b != [] {
      IdLessIff(a[1..], b[1..]);
      if a[0] == b[0] && IdLess(a[1..], b[1..]) {
        var i :| 0 <= i <= |a[1..]| && i < |b[1..]| && a[1..][..i] == b[1..][..i] &&
            (i == |a[1..]| || a[1..][i] < b[1..][i]);
        assert a[..i + 1] == [a[0]] + a[1..][..i] && b[..i + 1] == [b[0]] + b[1..][..i];
      }
      if a[0] < b[0] {
        assert a[..0] == b[..0];
      }
      if exists i :: 0 <= i <= |a| && i < |b| && a[..i] == b[..i] && (i == |a| || a[i] < b[i]) {
        var i :| 0 <= i <= |a| && i < |b| && a[..i] == b[..i] && (i == |a| || a[i] < b[i]);
        if i > 0 {
          assert a[..i][0] == b[..i][0];
          assert a[1..][..i - 1] == a[..i][1..] && b[1..][..i - 1] == b[..i][1..];
        }
      }
    }
  }

  lemma {:induction false} IdLessTransitive(a: string, b: string, c: string)
    requires IdLess(a, b) && IdLess(b, c)
    ensures IdLess(a, c)
  {
    if a != [] && a[0] == b[0] && b[0] == c[0] {
      IdLessTransitive(a[1..], b[1..], c[1..]);
    }
  }

  /** A sort key: an instant, ties broken by identifier. */
  datatype Key = Key(at: int, id: string)

  predicate Less(a: Key, b: Key) {
    a.at < b.at || (a.at == b.at && IdLess(a.id, b.id))
  }

  lemma LessTotal(a: Key, b: Key)
    ensures Less(a, b) || a == b || Less(b, a)
    ensures !(Less(a, b) && Less(b, a))
    ensures !Less(a, a)
  {
    IdLessTotal(a.id, b.id);
    IdLessTotal(a.id, a.id);
  }

  lemma LessTransitive(a: Key, b: Key, c: Key)
    requires Less(a, b) && Less(b, c)
    ensures Less(a, c)
  {
    if a.at == b.at == c.at {
      IdLessTransitive(a.id, b.id, c.id);
    }
  }

  /** Strictly increasing, hence duplicate free. */
  ghost predicate Increasing(s: seq<Key>) {
    forall i, j :: 0 <= i < j < |s| ==> Less(s[i], s[j])
  }

  ghost function Elements<T>(s: seq<T>): (r: set<T>) {
    set x | x in s
  }

  lemma {:induction false} LeastExists(ks: set<Key>) returns (m: Key)
    requires ks != {}
    ensures m in ks && forall k | k in ks && k != m :: Less(m, k)
    decreases |ks|
  {
    var x :| x in ks;
    if ks == {x} {
      m := x;
    } else {
      var rest := ks - {x};
      assert ks == rest + {x};
      var n := LeastExists(rest);
      LessTotal(x, n);
      m := if Less(x, n) then x else n;
      forall k | k in ks && k != m ensures Less(m, k) {
        if k != x && k != n && m == x {
          LessTransitive(x, n, k);
        }
      }
    }
  }

  /** The least key of a non-empty set. */
  ghost function Least(ks: set<Key>): (m: Key)
    requires ks != {}
    ensures m in ks && forall k | k in ks && k != m :: Less(m, k)
  {
    var _ := LeastWitness(ks);
    var m :| m in ks && forall k | k in ks && k != m :: Less(m, k);
    m
  }

  ghost function LeastWitness(ks: set<Key>): (ok: bool)
    requires ks != {}
    ensures exists m :: m in ks && forall k | k in ks && k != m :: Less(m, k)
  {
    assert exists m :: m in ks && forall k | k in ks && k != m :: Less(m, k) by {
      var m := LeastExists(ks);
    }
    true
  }

  /** The keys of a set in increasing order: repeatedly take the least. */
  ghost function Ascending(ks: set<Key>): (s: seq<Key>)
    ensures Elements(s) == ks && |s| == |ks| && Increasing(s)
    decreases |ks|
  {
    if ks == {} then [] else
      var m := Least(ks);
      AscendingStep(ks, m, Ascending(ks - {m}));
      [m] + Ascending(ks - {m})
  }

  lemma AscendingStep(ks: set<Key>, m: Key, rest: seq<Key>)
    requires m in ks && forall k | k in ks && k != m :: Less(m, k)
    requires Elements(rest) == ks - {m} && |rest| == |ks - {m}| && Increasing(rest)
    ensures Elements([m] + rest) == ks && |[m] + rest| == |ks| && Increasing([m] + rest)
  {
    forall k | k in rest ensures Less(m, k) {
      assert k in Elements(rest);
    }
    forall k ensures k in Elements([m] + rest) <==> k in ks {
      assert k in [m] + rest <==> k == m || k in rest;
      assert k in Elements(rest) <==> k in rest;
    }
  }

  /** An increasing sequence is determined by its elements. */
  lemma {:induction false} IncreasingUnique(s: seq<Key>, t: seq<Key>)
    requires Increasing(s) && Increasing(t) && Elements(s) == Elements(t)
    ensures s == t
  {
    assert t != [] ==> t[0] in Elements(t);
    if s != [] {
      assert s[0] in Elements(s);
      assert s[0] in t;
      assert t[0] in s;
      LessTotal(s[0], t[0]);
      assert s[0] == t[0];
      forall k ensures k in Elements(s[1..]) <==> k in Elements(t[1..]) {
        LessTotal(s[0], s[0]);
        assert k in Elements(s) <==> k == s[0] || k in s[1..];
        assert k in Elements(t) <==> k == t[0] || k in t[1..];
      }
      IncreasingUnique(s[1..], t[1..]);
      assert s == [s[0]] + s[1..] && t == [t[0]] + t[1..];
    }
  }

  /** Keys of a sequence of keyed values. */
  ghost function Keys<T>(s: seq<(Key, T)>): (r: seq<Key>)
    ensures |r| == |s| && forall i :: 0 <= i < |s| ==> r[i] == s[i].0
  {
    seq(|s|, i requires 0 <= i < |s| => s[i].0)
  }

  /** No later value has a smaller key. */
  ghost predicate Sorted<T>(s: seq<(Key, T)>) {
    forall i, j :: 0 <= i < j < |s| ==> !Less(s[j].0, s[i].0)
  }

  function Insert<T>(x: (Key, T), s: seq<(Key, T)>): (r: seq<(Key, T)>)
  {
    if s == [] || Less(x.0, s[0].0) then [x] + s else [s[0]] + Insert(x, s[1..])
  }

  /** Sorting by key, as the library sort the stores call. */
  function Sort<T>(s: seq<(Key, T)>): (r: seq<(Key, T)>)
  {
    if s == [] then [] else Insert(s[0], Sort(s[1..]))
  }

  lemma NotLess<T>(x: (Key, T), s: seq<(Key, T)>, j: nat)
    requires j < |s| && Sorted(s) && Less(x.0, s[0].0)
    ensures !Less(s[j].0, x.0)
  {
    LessTotal(s[0].0, x.0);
    if Less(s[j].0, x.0) {
      LessTransitive(s[j].0, x.0, s[0].0);
    }
  }

  lemma {:induction false} InsertProps<T>(x: (Key, T), s: seq<(Key, T)>)
    requires Sorted(s)
    ensures Sorted(Insert(x, s))
    ensures multiset(Insert(x, s)) == multiset([x]) + multiset(s)
  {
    if s == [] || Less(x.0, s[0].0) {
      var r := [x] + s;
      forall i, j | 0 <= i < j < |r| ensures !Less(r[j].0, r[i].0) {
        if i == 0 {
          NotLess(x, s, j - 1);
        }
      }
    } else {
      InsertProps(x, s[1..]);
      var t := Insert(x, s[1..]);
      assert s == [s[0]] + s[1..];
      assert multiset(s) == multiset([s[0]]) + multiset(s[1..]);
      forall j | 0 <= j < |t| ensures !Less(t[j].0, s[0].0) {
        assert t[j] in multiset(t);
        assert t[j] == x || t[j] in s[1..];
      }
    }
  }

  lemma {:induction false} SortProps<T>(s: seq<(Key, T)>)
    ensures Sorted(Sort(s)) && multiset(Sort(s)) == multiset(s) && |Sort(s)| == |s|
    ensures forall x :: x in Sort(s) <==> x in s
  {
    if s != [] {
      SortProps(s[1..]);
      InsertProps(s[0], Sort(s[1..]));
      assert s == [s[0]] + s[1..];
    }
    assert |multiset(Sort(s))| == |multiset(s)|;
    forall x ensures x in Sort(s) <==> x in s {
      assert x in multiset(Sort(s)) <==> x in multiset(s);
    }
  }

  /** With distinct keys the sorted keys are exactly the keys in ascending order. */
  lemma SortAscending<T>(s: seq<(Key, T)>)
    requires forall i, j :: 0 <= i < j < |s| ==> s[i].0 != s[j].0
    ensures Keys(Sort(s)) == Ascending(Elements(Keys(s)))
  {
    SortProps(s);
    var r := Sort(s);
    SameKeysDistinct(s, r);
    forall i, j | 0 <= i < j < |r| ensures Less(r[i].0, r[j].0) {
      LessTotal(r[i].0, r[j].0);
    }
    forall k ensures k in Elements(Keys(r)) <==> k in Elements(Keys(s)) {
      if k in Keys(r) {
        var i :| 0 <= i < |r| && r[i].0 == k;
        assert r[i] in s;
        var j :| 0 <= j < |s| && s[j] == r[i];
        assert Keys(s)[j] == k;
      }
      if k in Keys(s) {
        var i :| 0 <= i < |s| && s[i].0 == k;
        assert s[i] in r;
        var j :| 0 <= j < |r| && r[j] == s[i];
        assert Keys(r)[j] == k;
      }
    }
    IncreasingUnique(Keys(r), Ascending(Elements(Keys(s))));
  }

  /** A rearrangement of a sequence with distinct keys has distinct keys. */
  lemma SameKeysDistinct<T>(s: seq<(Key, T)>, r: seq<(Key, T)>)
    requires forall i, j :: 0 <= i < j < |s| ==> s[i].0 != s[j].0
    requires multiset(r) == multiset(s)
    ensures forall i, j :: 0 <= i < j < |r| ==> r[i].0 != r[j].0
  {
    RearrangedDistinct(s, r);
    forall i, j | 0 <= i < j < |r| ensures r[i].0 != r[j].0 {
      assert r[i] in multiset(r) && r[j] in multiset(r);
      assert r[i] in s && r[j] in s;
    }
  }

  lemma RearrangedDistinct<T>(s: seq<T>, r: seq<T>)
    requires forall i, j :: 0 <= i < j < |s| ==> s[i] != s[j]
    requires multiset(r) == multiset(s)
    ensures forall i, j :: 0 <= i < j < |r| ==> r[i] != r[j]
  {
    forall i, j | 0 <= i < j < |r| ensures r[i] != r[j] {
      SingleCount(s, r[i]);
      assert r == r[..i] + [r[i]] + r[i + 1..j] + [r[j]] + r[j + 1..];
    }
  }

  lemma {:induction false} SingleCount<T>(s: seq<T>, x: T)
    requires forall i, j :: 0 <= i < j < |s| ==> s[i] != s[j]
    ensures multiset(s)[x] <= 1
  {
    if s != [] {
      assert s == [s[0]] + s[1..];
      SingleCount(s[1..], x);
      forall y | y in s[1..] ensures y != s[0] {
        var j :| 0 <= j < |s[1..]| && s[1..][j] == y;
        assert s[j + 1] == y;
      }
    }
  }

  /** A duplicate-free listing of a set has its size. */
  lemma {:induction false} DistinctCount<T>(s: seq<T>, all: set<T>)
    requires forall i, j :: 0 <= i < j < |s| ==> s[i] != s[j]
    requires Elements(s) == all
    ensures |s| == |all|
    decreases |s|
  {
    if s != [] {
      var last, rest := s[|s| - 1], s[..|s| - 1];
      assert s == rest + [last];
      assert forall i :: 0 <= i < |rest| ==> rest[i] == s[i];
      assert Elements(rest) == all - {last};
      DistinctCount(rest, all - {last});
    }
  }
}
