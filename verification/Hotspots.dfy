/** The hotspot relations between threads (`select_hotspot_edges`, src/solver.cpp:307-364): the
upper quantile by weight, and in any case the strongest relations of every thread. */
module Hotspots {
  import opened Lists
  import opened NodeChoice
  import opened Evidence

  /** A relation between two threads; at most one for each pair. */
  datatype Link = Link(score: real, component: real)

  /** Lines 317-325. */
  function Weights(links: map<Pair, Link>, threads: set<int>, boost: real): map<Pair, real> {
    map p | p in links && p.0 != p.1 && links[p].score > 0.0 && p.0 in threads && p.1 in threads ::
      links[p].score * (1.0 + boost * links[p].component)
  }

  /** Lines 332-333. */
  function IndexAt(quantile: real, n: int): int {
    (quantile * (n - 1) as real).Floor
  }

  /** The pairs in the order of their weights. */
  method ByWeight(w: map<Pair, real>) returns (list: seq<Pair>)
    ensures Distinct(list) && (forall p :: p in list <==> p in w) && |list| == |w|
    ensures forall i, j :: 0 <= i < j < |list| ==> Of(w, list[i]) <= Of(w, list[j])
  {
    var all := ListPairs(w.Keys);
    var key := (p: Pair) => [Of(w, p)];
    list := SortBy(all, key);
    SortedPairs(all, key, list);
    hide SortBy;
    DistinctCard(list);
    assert (set p | p in list) == w.Keys && |w.Keys| == |w|;
    forall i, j | 0 <= i < j < |list|
      ensures Of(w, list[i]) <= Of(w, list[j])
    {
      assert !LexLess(key(list[j]), key(list[i]));
    }
  }

  function Below(w: map<Pair, real>, v: real): set<Pair> {
    set p | p in w && w[p] < v
  }

  function UpTo(w: map<Pair, real>, v: real): set<Pair> {
    set p | p in w && w[p] <= v
  }

  /** The value at that place of the weights in ascending order: no more weights than that are
  below it, and more than that are not above it. */
  predicate AtRank(w: map<Pair, real>, index: int, v: real) {
    |Below(w, v)| <= index < |UpTo(w, v)|
  }

  /** A list of all pairs by ascending weight. */
  ghost predicate Ranked(w: map<Pair, real>, list: seq<Pair>) {
    && Distinct(list) && (forall p :: p in list <==> p in w)
    && (forall i, j :: 0 <= i < j < |list| ==> Of(w, list[i]) <= Of(w, list[j]))
  }

  lemma BelowFirst(w: map<Pair, real>, list: seq<Pair>, index: nat)
    requires index < |list| && Ranked(w, list)
    ensures |Below(w, Of(w, list[index]))| <= index
  {
    var front := list[..index];
    var a, b := Below(w, Of(w, list[index])), set p | p in front;
    DistinctCard(front);
    forall p | p in a
      ensures p in b
    {
      assert p in list;
      var i :| 0 <= i < |list| && list[i] == p;
      assert i < index;
      assert front[i] == p;
    }
    Enough(a, b);
  }

  lemma UpToFirst(w: map<Pair, real>, list: seq<Pair>, index: nat)
    requires index < |list| && Ranked(w, list)
    ensures index < |UpTo(w, Of(w, list[index]))|
  {
    var front := list[..index + 1];
    var b := UpTo(w, Of(w, list[index]));
    var a := set p | p in front;
    DistinctCard(front);
    forall p | p in a
      ensures p in b
    {
      var i :| 0 <= i < |front| && front[i] == p;
      assert list[i] == p && p in list;
    }
    Enough(a, b);
  }

  lemma RankIn(w: map<Pair, real>, list: seq<Pair>, index: nat)
    requires index < |list| && Ranked(w, list)
    ensures AtRank(w, index, Of(w, list[index]))
  {
    hide Below, UpTo, Ranked;
    BelowFirst(w, list, index);
    UpToFirst(w, list, index);
  }

  /** Lines 328-334: the weight at the quantile; so many pairs are at least as heavy. */
  method Quantile(w: map<Pair, real>, quantile: real) returns (threshold: real, ghost heavy: set<Pair>)
    requires w != map[] && 0.0 <= quantile <= 1.0
    ensures (forall p :: p in heavy ==> p in w && w[p] >= threshold) && |heavy| == |w| - IndexAt(quantile, |w|)
    ensures AtRank(w, IndexAt(quantile, |w|), threshold) && exists p :: p in w && w[p] == threshold
  {
    hide IndexAt, AtRank;
    var list := ByWeight(w);
    QuantileIndex(quantile, |w|);
    var index := IndexAt(quantile, |w|);
    var at := list[index];
    assert at in list;
    threshold := w[at];
    RankIn(w, list, index);
    ghost var tail := list[index..];
    heavy := set p | p in tail;
    DistinctCard(tail);
    forall p | p in heavy
      ensures p in w && w[p] >= threshold
    {
      var i :| 0 <= i < |tail| && tail[i] == p;
      assert list[index + i] == p && p in list;
    }
  }

  lemma QuantileIndex(q: real, n: nat)
    requires 0.0 <= q <= 1.0 && n > 0
    ensures 0 <= IndexAt(q, n) < n
  {
    var m := (n - 1) as real;
    assert 0.0 <= q * m <= m by {
      assert q * m >= 0.0;
      assert (1.0 - q) * m >= 0.0;
    }
  }

  /** Lines 307-364: exactly the pairs that reach the threshold or are among the `k` strongest of
  one of their threads; at least the upper quantile of them. */
  method SelectHotspots(links: map<Pair, Link>, threads: set<int>, boost: real, quantile: real, k: nat)
    returns (r: map<Pair, real>, threshold: real)
    requires 0.0 <= quantile <= 1.0
    ensures var w := Weights(links, threads, boost);
      && (w == map[] ==> r == map[])
      && (forall p :: p in r <==> p in w && (w[p] + EPS >= threshold || Top(w, k, p.0, p) || Top(w, k, p.1, p)))
      && (forall p :: p in r ==> r[p] == w[p])
      && (w != map[] ==> AtRank(w, IndexAt(quantile, |w|), threshold) && |r| >= |w| - IndexAt(quantile, |w|))
  {
    hide Top, IndexAt, AtRank;
    var w := Weights(links, threads, boost);
    hide Weights;
    threshold := 0.0;
    if w == map[] {
      return map[], 0.0;
    }
    var limit, heavy := Quantile(w, quantile);
    var selected := SelectPairs(w, k);
    r := map p | p in w && !(w[p] + EPS < limit && p !in selected) :: w[p];
    threshold := limit;
    Enough(heavy, r.Keys);
  }

  lemma Enough(a: set<Pair>, b: set<Pair>)
    ensures a <= b ==> |a| <= |b|
  {
    if a <= b {
      assert b == a + (b - a);
    }
  }
}
