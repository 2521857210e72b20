/** Grouping anchors into domains (src/domain_solver.cpp:336-358): union-find with path
compression, and what its groups mean. */
module Components {
  import opened Lists
  import opened NodeChoice

  // ----- being connected -----

  predicate Linked(seeds: seq<Pair>, a: Family, b: Family) {
    (a, b) in seeds || (b, a) in seeds
  }

  predicate IsPath(seeds: seq<Pair>, path: seq<Family>) {
    path != [] && forall i :: 0 <= i < |path| - 1 ==> Linked(seeds, path[i], path[i + 1])
  }

  ghost predicate Connects(seeds: seq<Pair>, path: seq<Family>, a: Family, b: Family) {
    IsPath(seeds, path) && path[0] == a && path[|path| - 1] == b
  }

  /** A chain of confirmed pairs leads from one family to the other. */
  ghost predicate Connected(seeds: seq<Pair>, a: Family, b: Family) {
    exists path :: Connects(seeds, path, a, b)
  }

  lemma ConnectedSelf(seeds: seq<Pair>, a: Family)
    ensures Connected(seeds, a, a)
  {
    assert Connects(seeds, [a], a, a);
  }

  lemma ConnectedLink(seeds: seq<Pair>, a: Family, b: Family)
    requires Linked(seeds, a, b)
    ensures Connected(seeds, a, b)
  {
    assert Connects(seeds, [a, b], a, b);
  }

  lemma ConnectedTransitive(seeds: seq<Pair>, a: Family, b: Family, c: Family)
    requires Connected(seeds, a, b) && Connected(seeds, b, c)
    ensures Connected(seeds, a, c)
  {
    var p :| Connects(seeds, p, a, b);
    var q :| Connects(seeds, q, b, c);
    var r := p + q[1..];
    forall i | 0 <= i < |r| - 1
      ensures Linked(seeds, r[i], r[i + 1])
    {
      if i >= |p| - 1 {
        assert r[i] == q[i - (|p| - 1)] && r[i + 1] == q[i + 1 - (|p| - 1)];
      }
    }
    assert Connects(seeds, r, a, c);
  }

  lemma ConnectedSymmetric(seeds: seq<Pair>, a: Family, b: Family)
    requires Connected(seeds, a, b)
    ensures Connected(seeds, b, a)
  {
    var p :| Connects(seeds, p, a, b);
    var q := seq(|p|, i requires 0 <= i < |p| => p[|p| - 1 - i]);
    forall i | 0 <= i < |q| - 1
      ensures Linked(seeds, q[i], q[i + 1])
    {
      assert Linked(seeds, p[|p| - 2 - i], p[|p| - 2 - i + 1]);
    }
    assert Connects(seeds, q, b, a);
  }

  lemma ConnectedMore(seeds: seq<Pair>, pair: Pair, a: Family, b: Family)
    requires Connected(seeds, a, b)
    ensures Connected(seeds + [pair], a, b)
  {
    var p :| Connects(seeds, p, a, b);
    assert Connects(seeds + [pair], p, a, b);
  }

  // ----- the forest -----

  /** Parent links lead to anchors and never to a greater name. */
  predicate Forest(parent: map<Family, Family>) {
    parent.Values <= parent.Keys && forall x :: x in parent ==> parent[x] <= x
  }

  function Rep(parent: map<Family, Family>, x: Family): Family
    decreases x
  {
    if x in parent && parent[x] < x then Rep(parent, parent[x]) else x
  }

  lemma ParentIn(parent: map<Family, Family>, x: Family)
    requires Forest(parent) && x in parent
    ensures parent[x] in parent && parent[x] <= x
  {
    assert parent[x] in parent.Values;
  }

  lemma {:induction false} RepIsRoot(parent: map<Family, Family>, x: Family)
    requires Forest(parent) && x in parent
    ensures var r := Rep(parent, x); r in parent && r <= x && parent[r] == r
    decreases x
  {
    ParentIn(parent, x);
    if parent[x] < x {
      RepIsRoot(parent, parent[x]);
    }
  }

  lemma StillForest(parent: map<Family, Family>, x: Family, r: Family)
    requires Forest(parent) && x in parent && r in parent && r <= x
    ensures Forest(parent[x := r])
  {
    var next := parent[x := r];
    forall v | v in next.Values
      ensures v in next.Keys
    {
      var k :| k in next && next[k] == v;
      if k != x {
        assert parent[k] in parent.Values;
      }
    }
  }

  /** Linking a name to its representative changes no representative. */
  lemma {:induction false} CompressKeeps(parent: map<Family, Family>, x: Family, y: Family)
    requires Forest(parent) && x in parent && y in parent
    ensures Rep(parent[x := Rep(parent, x)], y) == Rep(parent, y)
    decreases y
  {
    var r := Rep(parent, x);
    var next := parent[x := r];
    RepIsRoot(parent, x);
    ParentIn(parent, y);
    if y == x {
      assert Rep(next, r) == r;
    } else if parent[y] < y {
      CompressKeeps(parent, x, parent[y]);
    }
  }

  /** Linking a root below a smaller root merges their two classes. */
  lemma {:induction false} JoinMerges(parent: map<Family, Family>, low: Family, high: Family, y: Family)
    requires Forest(parent) && low in parent && high in parent && y in parent
    requires parent[low] == low && parent[high] == high && low < high
    ensures Rep(parent[high := low], y) == if Rep(parent, y) == high then low else Rep(parent, y)
    decreases y
  {
    var next := parent[high := low];
    RepIsRoot(parent, y);
    ParentIn(parent, y);
    assert Rep(next, low) == low;
    if y != high && parent[y] < y {
      JoinMerges(parent, low, high, parent[y]);
    }
  }

  /** The representatives say which families the pairs connect. */
  ghost predicate Groups(parent: map<Family, Family>, seeds: seq<Pair>) {
    && (forall x :: x in parent ==> Connected(seeds, x, Rep(parent, x)))
    && (forall i :: 0 <= i < |seeds| ==>
          seeds[i].0 in parent && seeds[i].1 in parent && Rep(parent, seeds[i].0) == Rep(parent, seeds[i].1))
  }

  lemma {:induction false} PathStays(parent: map<Family, Family>, seeds: seq<Pair>, path: seq<Family>)
    requires Forest(parent) && Groups(parent, seeds) && IsPath(seeds, path) && path[0] in parent
    ensures path[|path| - 1] in parent && Rep(parent, path[|path| - 1]) == Rep(parent, path[0])
    decreases |path|
  {
    hide Connected, Rep;
    if |path| > 1 {
      var n := |path| - 2;
      PathStays(parent, seeds, path[..n + 1]);
      assert Linked(seeds, path[n], path[n + 1]);
      if (path[n], path[n + 1]) in seeds {
        var i :| 0 <= i < |seeds| && seeds[i] == (path[n], path[n + 1]);
      } else {
        var i :| 0 <= i < |seeds| && seeds[i] == (path[n + 1], path[n]);
      }
    }
  }

  /** Two families have the same representative exactly when they are connected. */
  lemma SameRepIffConnected(parent: map<Family, Family>, seeds: seq<Pair>, x: Family, y: Family)
    requires Forest(parent) && Groups(parent, seeds) && x in parent && y in parent
    ensures Rep(parent, x) == Rep(parent, y) <==> Connected(seeds, x, y)
  {
    hide Rep;
    if Rep(parent, x) == Rep(parent, y) {
      ConnectedSymmetric(seeds, y, Rep(parent, y));
      ConnectedTransitive(seeds, x, Rep(parent, x), y);
    }
    if Connected(seeds, x, y) {
      var path :| Connects(seeds, path, x, y);
      PathStays(parent, seeds, path);
    }
  }

  /** Two classes have become one, the others are as before. */
  ghost predicate Merges(parent: map<Family, Family>, next: map<Family, Family>, a: Family, b: Family) {
    var low, high := if a < b then a else b, if a < b then b else a;
    forall y :: y in parent ==> Rep(next, y) == if Rep(parent, y) == high then low else Rep(parent, y)
  }

  ghost predicate SameReps(parent: map<Family, Family>, next: map<Family, Family>) {
    parent.Keys == next.Keys && forall y :: y in parent ==> Rep(next, y) == Rep(parent, y)
  }

  lemma Compressed(parent: map<Family, Family>, x: Family)
    requires Forest(parent) && x in parent
    ensures var next := parent[x := Rep(parent, x)]; Forest(next) && SameReps(parent, next)
  {
    RepIsRoot(parent, x);
    hide Forest, Rep;
    var next := parent[x := Rep(parent, x)];
    StillForest(parent, x, Rep(parent, x));
    forall y | y in parent
      ensures Rep(next, y) == Rep(parent, y)
    {
      CompressKeeps(parent, x, y);
    }
  }

  lemma Joined(parent: map<Family, Family>, low: Family, high: Family)
    requires Forest(parent) && low in parent && high in parent
    requires parent[low] == low && parent[high] == high && low < high
    ensures var next := parent[high := low]; Forest(next) && next.Keys == parent.Keys && Merges(parent, next, low, high)
  {
    hide Forest, Rep;
    StillForest(parent, high, low);
    forall y | y in parent
      ensures var next := parent[high := low]; Rep(next, y) == if Rep(parent, y) == high then low else Rep(parent, y)
    {
      JoinMerges(parent, low, high, y);
    }
  }

  /** The forest after one more pair. */
  lemma GroupsMore(parent: map<Family, Family>, next: map<Family, Family>, seeds: seq<Pair>, pair: Pair)
    requires Forest(parent) && Groups(parent, seeds) && Forest(next) && next.Keys == parent.Keys
    requires pair.0 in parent && pair.1 in parent
    requires Merges(parent, next, Rep(parent, pair.0), Rep(parent, pair.1))
    ensures Groups(next, seeds + [pair])
  {
    hide Rep, Connected;
    var more := seeds + [pair];
    var a, b := Rep(parent, pair.0), Rep(parent, pair.1);
    LinkReps(parent, seeds, pair);
    forall x | x in next
      ensures Connected(more, x, Rep(next, x))
    {
      ConnectedMore(seeds, pair, x, Rep(parent, x));
      if Rep(next, x) != Rep(parent, x) {
        ConnectedTransitive(more, x, Rep(parent, x), Rep(next, x));
      }
    }
    forall i | 0 <= i < |more|
      ensures more[i].0 in next && more[i].1 in next && Rep(next, more[i].0) == Rep(next, more[i].1)
    {
      if i < |seeds| {
        assert more[i] == seeds[i];
      }
    }
  }

  lemma LinkReps(parent: map<Family, Family>, seeds: seq<Pair>, pair: Pair)
    requires Forest(parent) && Groups(parent, seeds) && pair.0 in parent && pair.1 in parent
    ensures var a, b := Rep(parent, pair.0), Rep(parent, pair.1);
      Connected(seeds + [pair], a, b) && Connected(seeds + [pair], b, a)
  {
    hide Rep, Connected;
    var more, a, b := seeds + [pair], Rep(parent, pair.0), Rep(parent, pair.1);
    ConnectedMore(seeds, pair, pair.0, a);
    ConnectedMore(seeds, pair, pair.1, b);
    ConnectedSymmetric(more, pair.0, a);
    assert pair in more by {
      assert more[|seeds|] == pair;
    }
    ConnectedLink(more, pair.0, pair.1);
    ConnectedTransitive(more, a, pair.0, pair.1);
    ConnectedTransitive(more, a, pair.1, b);
    ConnectedSymmetric(more, a, b);
  }

  class UnionFind {
    var parent: map<Family, Family>

    constructor (anchors: set<Family>)
      ensures parent == map x | x in anchors :: x
    {
      parent := map x | x in anchors :: x;
    }

    /** Lines 349-352, with path compression. */
    method Root(x: Family) returns (r: Family)
      requires Forest(parent) && x in parent
      modifies this
      ensures Forest(parent) && SameReps(old(parent), parent) && r == Rep(old(parent), x)
      decreases x
    {
      hide Forest, SameReps;
      ghost var p0 := parent;
      ParentIn(parent, x);
      if parent[x] == x {
        SameRepsSelf(parent);
        return x;
      }
      r := Root(parent[x]);
      ghost var p1 := parent;
      SameRepsAt(p0, p1, x);
      Compressed(p1, x);
      parent := parent[x := r];
      SameRepsTransitive(p0, p1, parent);
    }

    /** Lines 354-355. */
    method Join(pair: Pair, ghost seeds: seq<Pair>)
      requires Forest(parent) && Groups(parent, seeds) && pair.0 in parent && pair.1 in parent
      modifies this
      ensures Forest(parent) && parent.Keys == old(parent).Keys && Groups(parent, seeds + [pair])
    {
      hide Groups, Rep, Forest, SameReps, Merges;
      ghost var p0 := parent;
      SameRepsSelf(p0);
      SameRepsAt(p0, p0, pair.1);
      var a := Root(pair.0);
      ghost var p1 := parent;
      SameRepsAt(p0, p1, pair.1);
      var b := Root(pair.1);
      ghost var p2 := parent;
      SameRepsTransitive(p0, p1, p2);
      SameRepsAt(p0, p2, pair.0);
      SameRepsAt(p0, p2, pair.1);
      RepIsRoot(p2, pair.0);
      RepIsRoot(p2, pair.1);
      if a != b {
        var low, high := if a < b then a else b, if a < b then b else a;
        Joined(p2, low, high);
        parent := parent[high := low];
        MergesAfter(p0, p2, parent, low, high);
        MergesSwap(p0, parent, low, high);
      } else {
        MergesSame(p0, p2, a);
      }
      GroupsMore(p0, parent, seeds, pair);
    }
  }

  lemma SameRepsSelf(p: map<Family, Family>)
    ensures SameReps(p, p)
  {
  }

  lemma SameRepsAt(p: map<Family, Family>, q: map<Family, Family>, x: Family)
    requires SameReps(p, q) && x in p
    ensures x in q && Rep(q, x) == Rep(p, x) && q.Keys == p.Keys
  {
    hide Rep;
    assert x in p.Keys;
  }

  lemma SameRepsTransitive(p: map<Family, Family>, q: map<Family, Family>, r: map<Family, Family>)
    requires SameReps(p, q) && SameReps(q, r)
    ensures SameReps(p, r)
  {
    hide Rep;
    forall y | y in p
      ensures Rep(r, y) == Rep(p, y)
    {
      assert y in p.Keys;
      assert y in q;
    }
  }

  lemma MergesAfter(p: map<Family, Family>, q: map<Family, Family>, r: map<Family, Family>, a: Family, b: Family)
    requires SameReps(p, q) && Merges(q, r, a, b)
    ensures Merges(p, r, a, b)
  {
    hide Rep;
    forall y | y in p
      ensures y in q && Rep(q, y) == Rep(p, y)
    {
      assert y in p.Keys;
    }
  }

  lemma MergesSwap(p: map<Family, Family>, r: map<Family, Family>, a: Family, b: Family)
    requires Merges(p, r, a, b)
    ensures Merges(p, r, b, a)
  {
    hide Rep;
  }

  lemma MergesSame(p: map<Family, Family>, q: map<Family, Family>, a: Family)
    requires SameReps(p, q)
    ensures Merges(p, q, a, a)
  {
    hide Rep;
  }

  // ----- the groups -----

  /** What is filed under each representative, when the names of `done` have been filed. */
  ghost predicate Filed(parent: map<Family, Family>, files: map<Family, seq<Family>>, done: seq<Family>) {
    && (forall r :: r in files ==> files[r] != [] && Increasing(files[r]))
    && (forall r, x :: r in files && x in files[r] ==> x in done && Rep(parent, x) == r)
    && (forall x :: x in done ==> Rep(parent, x) in files && x in files[Rep(parent, x)])
  }

  lemma AppendGreatest(s: seq<Family>, x: Family)
    requires Increasing(s) && forall y :: y in s ==> y < x
    ensures Increasing(s + [x])
  {
    forall i | 0 <= i < |s|
      ensures s[i] < x
    {
      var y := s[i];
      assert y in s;
    }
  }

  lemma FileOne(parent: map<Family, Family>, files: map<Family, seq<Family>>, done: seq<Family>, x: Family)
    requires Filed(parent, files, done) && forall y :: y in done ==> y < x
    ensures var r := Rep(parent, x);
      Filed(parent, files[r := (if r in files then files[r] else []) + [x]], done + [x])
  {
    var r := Rep(parent, x);
    var old' := if r in files then files[r] else [];
    assert Increasing(old') by {
      hide Rep;
    }
    hide Rep, Increasing;
    var new' := old' + [x];
    forall y | y in old'
      ensures y < x && y in done && Rep(parent, y) == r
    {
      assert r in files && y in files[r];
      assert y in done;
    }
    AppendGreatest(old', x);
    FileUnder(parent, files, done, x, new');
  }

  lemma FileUnder(parent: map<Family, Family>, files: map<Family, seq<Family>>, done: seq<Family>, x: Family, list: seq<Family>)
    requires Filed(parent, files, done) && Increasing(list) && list != []
    requires forall y :: y in list <==> y == x || (Rep(parent, x) in files && y in files[Rep(parent, x)])
    ensures Filed(parent, files[Rep(parent, x) := list], done + [x])
  {
    hide Rep, Increasing;
    var next := files[Rep(parent, x) := list];
    forall q, y | q in next && y in next[q]
      ensures y in done + [x] && Rep(parent, y) == q
    {
    }
    forall y | y in done + [x]
      ensures Rep(parent, y) in next && y in next[Rep(parent, y)]
    {
    }
  }

  /** Nonempty ascending groups that share nothing and hold all anchors; two anchors are in one
  group exactly when confirmed pairs connect them. */
  ghost predicate Partition(anchors: set<Family>, seeds: seq<Pair>, groups: seq<seq<Family>>) {
    && (forall i :: 0 <= i < |groups| ==> groups[i] != [] && Increasing(groups[i]))
    && (forall i, x :: 0 <= i < |groups| && x in groups[i] ==> x in anchors)
    && (forall x :: x in anchors ==> exists i :: 0 <= i < |groups| && x in groups[i])
    && (forall i, j, x, y :: 0 <= i < |groups| && 0 <= j < |groups| && x in groups[i] && y in groups[j] ==>
          (i == j <==> Connected(seeds, x, y)))
  }

  /** A representative is the least name of its group. */
  lemma FirstIsRep(parent: map<Family, Family>, files: map<Family, seq<Family>>, order: seq<Family>, r: Family)
    requires Forest(parent) && Filed(parent, files, order) && r in files && forall x :: x in order <==> x in parent.Keys
    ensures files[r] != [] && files[r][0] == r
  {
    hide Forest;
    var x := files[r][0];
    assert x in files[r];
    assert x in order && Rep(parent, x) == r;
    RepIsRoot(parent, x);
    assert Rep(parent, r) == r;
    assert r in parent.Keys;
    assert r in files[r];
  }

  lemma PartitionFrom(anchors: set<Family>, seeds: seq<Pair>, parent: map<Family, Family>, files: map<Family, seq<Family>>,
                      order: seq<Family>, keys: seq<Family>, groups: seq<seq<Family>>)
    requires Forest(parent) && Groups(parent, seeds) && parent.Keys == anchors && Filed(parent, files, order)
    requires forall x :: x in order <==> x in anchors
    requires Distinct(keys) && (forall k :: k in keys <==> k in files)
    requires |groups| == |keys| && forall i :: 0 <= i < |keys| ==> keys[i] in files && groups[i] == files[keys[i]]
    ensures Partition(anchors, seeds, groups)
    ensures forall i :: 0 <= i < |groups| ==> groups[i] != [] && groups[i][0] == keys[i]
  {
    hide Forest, Groups, Rep, Connected, Increasing;
    forall i | 0 <= i < |groups|
      ensures groups[i] != [] && groups[i][0] == keys[i]
    {
      FirstIsRep(parent, files, order, keys[i]);
    }
    forall x | x in anchors
      ensures exists i :: 0 <= i < |groups| && x in groups[i]
    {
      var i :| 0 <= i < |keys| && keys[i] == Rep(parent, x);
      assert x in groups[i];
    }
    forall i, j, x, y | 0 <= i < |groups| && 0 <= j < |groups| && x in groups[i] && y in groups[j]
      ensures i == j <==> Connected(seeds, x, y)
    {
      assert x in order && y in order && Rep(parent, x) == keys[i] && Rep(parent, y) == keys[j];
      assert x in parent.Keys && y in parent.Keys;
      SameRepIffConnected(parent, seeds, x, y);
    }
  }

  function Names(s: set<Family>): (r: seq<Family>)
    ensures Increasing(r) && (forall x :: x in r <==> x in s)
  {
    var r := Ascending(s);
    assert forall i :: 0 <= i < |r| ==> r[i] in r;
    r
  }

  lemma Starts(anchors: set<Family>, parent: map<Family, Family>)
    requires parent == map x | x in anchors :: x
    ensures Forest(parent) && Groups(parent, []) && parent.Keys == anchors
  {
    forall x | x in parent
      ensures Connected([], x, Rep(parent, x))
    {
      ConnectedSelf([], x);
    }
    forall v | v in parent.Values
      ensures v in parent.Keys
    {
      var k :| k in parent && parent[k] == v;
    }
  }

  lemma BelowNext(order: seq<Family>, i: nat)
    requires Increasing(order) && i < |order|
    ensures order[..i + 1] == order[..i] + [order[i]] && order[i] in order
    ensures forall y :: y in order[..i] ==> y < order[i]
  {
  }

  /** Lines 353-356. */
  method JoinAll(find: UnionFind, anchors: set<Family>, seeds: seq<Pair>)
    requires Forest(find.parent) && Groups(find.parent, []) && find.parent.Keys == anchors
    requires forall i :: 0 <= i < |seeds| ==> seeds[i].0 in anchors && seeds[i].1 in anchors
    modifies find
    ensures Forest(find.parent) && Groups(find.parent, seeds) && find.parent.Keys == anchors
  {
    hide Forest, Groups;
    assert seeds[..0] == [];
    for i := 0 to |seeds|
      invariant Forest(find.parent) && Groups(find.parent, seeds[..i]) && find.parent.Keys == anchors
    {
      assert seeds[i].0 in find.parent.Keys && seeds[i].1 in find.parent.Keys;
      assert seeds[..i + 1] == seeds[..i] + [seeds[i]];
      find.Join(seeds[i], seeds[..i]);
    }
    assert seeds[..|seeds|] == seeds;
  }

  /** Lines 357-358. */
  method FileAll(find: UnionFind, order: seq<Family>) returns (files: map<Family, seq<Family>>)
    requires Forest(find.parent) && Increasing(order) && forall x :: x in order ==> x in find.parent.Keys
    modifies find
    ensures Filed(old(find.parent), files, order)
  {
    hide Forest, SameReps, Filed, Rep, Increasing;
    ghost var parent := find.parent;
    SameRepsSelf(parent);
    files := map[];
    FiledNothing(parent);
    for i := 0 to |order|
      invariant Forest(find.parent) && SameReps(parent, find.parent) && find.parent.Keys == parent.Keys
      invariant Filed(parent, files, order[..i])
    {
      BelowNext(order, i);
      var x := order[i];
      ghost var before := find.parent;
      var r := find.Root(x);
      SameRepsAt(parent, before, x);
      SameRepsTransitive(parent, before, find.parent);
      SameRepsAt(parent, find.parent, x);
      FileOne(parent, files, order[..i], x);
      files := files[r := (if r in files then files[r] else []) + [x]];
    }
    assert order[..|order|] == order;
  }

  /** Lines 347-358: the groups, in the order of their least names. */
  method GroupAnchors(anchors: set<Family>, seeds: seq<Pair>) returns (groups: seq<seq<Family>>)
    requires forall i :: 0 <= i < |seeds| ==> seeds[i].0 in anchors && seeds[i].1 in anchors
    ensures Partition(anchors, seeds, groups)
    ensures forall i, j :: 0 <= i < j < |groups| ==> groups[i] != [] && groups[j] != [] && groups[i][0] < groups[j][0]
  {
    hide Forest, Groups, Filed, Partition, Names;
    var find := new UnionFind(anchors);
    Starts(anchors, find.parent);
    JoinAll(find, anchors, seeds);
    ghost var parent := find.parent;
    var order := Names(anchors);
    var files := FileAll(find, order);
    var keys := Names(files.Keys);
    KeysIn(keys, files.Keys);
    groups := seq(|keys|, i requires 0 <= i < |keys| => files[keys[i]]);
    PartitionFrom(anchors, seeds, parent, files, order, keys, groups);
  }

  lemma KeysIn(keys: seq<Family>, all: set<Family>)
    requires forall x :: x in keys ==> x in all
    ensures forall i :: 0 <= i < |keys| ==> keys[i] in all
  {
  }

  lemma FiledNothing(parent: map<Family, Family>)
    ensures Filed(parent, map[], [])
  {
  }
}
