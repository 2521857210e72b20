/** The numbers of the relation graph (src/graph.cpp:9-11, 48-93, 128-158, 198-231): relation
aggregates, the demand of a thread and the score of a relation.  `log1p` and `sqrt` are any
functions that are nowhere negative on what they are applied to. */
module GraphStatistics {
  import opened Lists
  import opened Threads

  /** Two threads, smaller id first. */
  type Key = (int, int)

  function EdgeKey(a: int, b: int): Key {
    if b < a then (b, a) else (a, b)
  }

  datatype Sample = Sample(id: Identity, time: nat, runtime: nat, runqueue: nat, group: nat, cpu: int)

  datatype Observation = Observation(from: int, to: int, time: nat, futex: real, vfs: real, overlap: real)
  {
    function Total(): real {
      futex + vfs
    }
  }

  datatype Aggregate = Aggregate(
    count: int,
    forward: real,
    reverse: real,
    handoff: real,
    share: real,
    overlap: real,
    total: real,
    squared: real)

  const NOTHING: Aggregate := Aggregate(0, 0.0, 0.0, 0.0, 0.0, 0.0, 0.0, 0.0)

  // ----- aggregates -----

  function Sq(x: real): real {
    x * x
  }

  /** Lines 81-91. */
  function Plus(key: Key, a: Aggregate, o: Observation): Aggregate {
    var total := o.Total();
    Aggregate(a.count + 1,
              if o.from == key.0 then a.forward + o.futex else a.forward,
              if o.from == key.0 then a.reverse else a.reverse + o.futex,
              a.handoff + o.futex, a.share + o.vfs, a.overlap + o.overlap, a.total + total, a.squared + Sq(total))
  }

  /** Lines 54-64. */
  function Minus(key: Key, a: Aggregate, o: Observation): Aggregate {
    var total := o.Total();
    Aggregate(a.count - 1,
              if o.from == key.0 then a.forward - o.futex else a.forward,
              if o.from == key.0 then a.reverse else a.reverse - o.futex,
              a.handoff - o.futex, a.share - o.vfs, a.overlap - o.overlap, a.total - total, a.squared - Sq(total))
  }

  /** The aggregate of a history, from scratch. */
  function Fold(key: Key, history: seq<Observation>): Aggregate {
    if history == [] then NOTHING
    else Plus(key, Fold(key, history[..|history| - 1]), history[|history| - 1])
  }

  /** Taking back an observation before or after adding another is the same. */
  lemma PlusMinus(key: Key, a: Aggregate, o: Observation, p: Observation)
    ensures Minus(key, Plus(key, a, o), p) == Plus(key, Minus(key, a, p), o)
    ensures Minus(key, Plus(key, a, o), o) == a
  {
  }

  /** The oldest observation can be taken back out of the aggregate. */
  lemma {:induction false} FoldDropsFirst(key: Key, history: seq<Observation>)
    requires history != []
    ensures Fold(key, history[1..]) == Minus(key, Fold(key, history), history[0])
  {
    hide Plus, Minus;
    var n := |history| - 1;
    if n == 0 {
      assert history[1..] == [] && history[..n] == [];
      PlusMinus(key, NOTHING, history[0], history[0]);
    } else {
      var front, tail, last := history[..n], history[1..], history[n];
      FoldDropsFirst(key, front);
      assert tail[..|tail| - 1] == front[1..] && tail[|tail| - 1] == last && front[0] == history[0];
      PlusMinus(key, Fold(key, front), last, history[0]);
    }
  }

  lemma FoldCount(key: Key, history: seq<Observation>)
    ensures Fold(key, history).count == |history|
  {
  }

  // ----- variance -----

  /** Sum of the squared distances from `mean`: the second pass of the textbook variance. */
  function Spread(history: seq<Observation>, mean: real): real {
    if history == [] then 0.0
    else
      Spread(history[..|history| - 1], mean) + Sq(history[|history| - 1].Total() - mean)
  }

  lemma Square(d: real)
    ensures Sq(d) >= 0.0
  {
  }

  lemma {:induction false} SpreadNonNegative(history: seq<Observation>, mean: real)
    ensures Spread(history, mean) >= 0.0
  {
    hide Sq;
    if history != [] {
      SpreadNonNegative(history[..|history| - 1], mean);
      Square(history[|history| - 1].Total() - mean);
    }
  }

  lemma SquareOfDifference(x: real, m: real)
    ensures Sq(x - m) == Sq(x) - 2.0 * m * x + m * m
  {
  }

  /** A spread written with sums only. */
  function Expanded(squared: real, total: real, c: real, mean: real): real {
    squared - 2.0 * mean * total + c * mean * mean
  }

  lemma ExpandedMore(squared: real, total: real, c: real, mean: real, x: real)
    ensures Expanded(squared + Sq(x), total + x, c + 1.0, mean) == Expanded(squared, total, c, mean) + Sq(x - mean)
  {
    SquareOfDifference(x, mean);
    hide Sq;
    assert 2.0 * mean * (total + x) == 2.0 * mean * total + 2.0 * mean * x;
    assert (c + 1.0) * mean * mean == c * mean * mean + mean * mean by {
      assert (c + 1.0) * mean == c * mean + mean;
    }
  }

  /** The spread around any value, from the sums alone. */
  lemma {:induction false} SpreadFromSums(key: Key, history: seq<Observation>, mean: real)
    ensures var a := Fold(key, history); Spread(history, mean) == Expanded(a.squared, a.total, a.count as real, mean)
  {
    hide Expanded, Sq;
    if history == [] {
      ExpandedNone(mean);
    } else {
      var n := |history| - 1;
      var front, x := history[..n], history[n].Total();
      SpreadFromSums(key, front, mean);
      var a := Fold(key, front);
      ExpandedMore(a.squared, a.total, a.count as real, mean, x);
      assert (a.count + 1) as real == a.count as real + 1.0;
    }
  }

  lemma ExpandedNone(mean: real)
    ensures Expanded(0.0, 0.0, 0.0, mean) == 0.0
  {
  }

  lemma Cancel(squared: real, spread: real, c: real, mean: real, total: real)
    requires spread == Expanded(squared, total, c, mean) && total == c * mean
    ensures spread == squared - c * mean * mean
  {
    assert 2.0 * mean * (c * mean) == 2.0 * (c * mean * mean);
  }

  /** Lines 215-218: the variance from the sums of one pass. */
  function OnePass(count: int, total: real, squared: real): real
    requires count >= 2
  {
    var c := count as real;
    var mean := total / c;
    (squared - c * mean * mean) / (c - 1.0)
  }

  /** The variance of the textbook: first the mean, then the distances from it. */
  function TwoPass(history: seq<Observation>, mean: real): real
    requires |history| >= 2
  {
    Spread(history, mean) / (|history| - 1) as real
  }

  lemma FromSums(count: int, total: real, squared: real, spread: real)
    requires count >= 2
    requires spread == Expanded(squared, total, count as real, total / count as real)
    ensures OnePass(count, total, squared) == spread / (count - 1) as real
  {
    var c := count as real;
    var mean := total / c;
    hide Expanded;
    assert total == c * mean;
    Cancel(squared, spread, c, mean, total);
    assert (count - 1) as real == c - 1.0;
  }

  /** The variance that the source computes in one pass is the textbook one, so the guard against
  negative values never changes anything. */
  lemma OnePassVariance(key: Key, history: seq<Observation>)
    requires |history| >= 2
    ensures var a := Fold(key, history);
      && a.count == |history|
      && OnePass(a.count, a.total, a.squared) == TwoPass(history, a.total / |history| as real) >= 0.0
  {
    FoldCount(key, history);
    var a := Fold(key, history);
    var mean := a.total / |history| as real;
    SpreadFromSums(key, history, mean);
    SpreadNonNegative(history, mean);
    Quotient(Spread(history, mean), (|history| - 1) as real);
    FromSums(a.count, a.total, a.squared, Spread(history, mean));
    hide Fold, Spread, OnePass, Expanded;
  }

  lemma Quotient(a: real, b: real)
    requires a >= 0.0 && b > 0.0
    ensures a / b >= 0.0
  {
  }

  // ----- ranges -----

  predicate Unit(x: real) {
    0.0 <= x <= 1.0
  }

  function Clamp(x: real): real {
    if x < 0.0 then 0.0 else if x > 1.0 then 1.0 else x
  }

  function AtMostOne(x: real): real {
    if x < 1.0 then x else 1.0
  }

  /** The calibration and the two library functions. */
  datatype Scale = Scale(horizon: nat, activity: real, sync: real, share: real, log1p: real -> real, sqrt: real -> real)
  {
    ghost predicate Valid() {
      && activity > 0.0 && sync > 0.0 && share > 0.0
      && (forall x :: x >= 0.0 ==> log1p(x) >= 0.0) && (forall x :: x >= 0.0 ==> sqrt(x) >= 0.0)
    }
  }

  /** Lines 9-11. */
  function Normalized(s: Scale, value: real, scale: real): real
    requires scale > 0.0
  {
    AtMostOne(s.log1p(Max(0.0, value)) / scale)
  }

  lemma NormalizedUnit(s: Scale, value: real, scale: real)
    requires s.Valid() && scale > 0.0
    ensures Unit(Normalized(s, value, scale))
  {
    var l := s.log1p(Max(0.0, value));
    assert l >= 0.0;
    Quotient(l, scale);
  }

  lemma UnitTimes(a: real, b: real)
    requires Unit(a) && Unit(b)
    ensures Unit(a * b)
  {
    Product(a, b);
    Product(a, 1.0 - b);
    assert a * (1.0 - b) == a - a * b;
  }

  lemma Product(a: real, b: real)
    requires a >= 0.0 && b >= 0.0
    ensures a * b >= 0.0
  {
  }

  lemma UnitOver(a: real, b: real)
    requires Unit(a) && b >= 0.0
    ensures Unit(a / (1.0 + b))
  {
    Quotient(a, 1.0 + b);
    QuotientAtMostOne(a, 1.0 + b);
  }

  lemma QuotientAtMostOne(a: real, b: real)
    requires a <= b && b > 0.0
    ensures a / b <= 1.0
  {
    var q := a / b;
    assert q * b == a;
    if q > 1.0 {
      MoreThan(q, b);
    }
  }

  lemma MoreThan(q: real, b: real)
    requires q > 1.0 && b > 0.0
    ensures q * b > b
  {
    assert (q - 1.0) * b > 0.0;
  }

  // ----- the demand of a thread -----

  /** Lines 138-140: the pressure between two samples, if both counters went on. */
  function Pressure(a: Sample, b: Sample): Option<real> {
    if b.time <= a.time || b.runtime < a.runtime || b.runqueue < a.runqueue then None
    else Some(Clamp(((b.runtime - a.runtime) + (b.runqueue - a.runqueue)) as real / (b.time - a.time) as real))
  }

  function Pressures(history: seq<Sample>): (r: seq<real>)
    ensures forall i :: 0 <= i < |r| ==> Unit(r[i])
  {
    if |history| < 2 then []
    else
      var n := |history| - 1;
      var p := Pressure(history[n - 1], history[n]);
      Pressures(history[..n]) + if p.Some? then [p.value] else []
  }

  /** Lines 142-147. */
  function Ewma(pressure: seq<real>): real {
    if pressure == [] then 0.0
    else
      var n := |pressure| - 1;
      if n == 0 then pressure[0] else 0.0645 * pressure[n] + 0.9355 * Ewma(pressure[..n])
  }

  lemma {:induction false} EwmaUnit(pressure: seq<real>)
    requires forall i :: 0 <= i < |pressure| ==> Unit(pressure[i])
    ensures Unit(Ewma(pressure))
  {
    if |pressure| > 1 {
      EwmaUnit(pressure[..|pressure| - 1]);
    }
  }

  datatype Demand = Demand(id: Identity, group: nat, demand: real, confidence: real, cpu: int)

  function DemandOf(s: Scale, history: seq<Sample>): Demand
    requires history != []
  {
    var pressure, last := Pressures(history), history[|history| - 1];
    var least := if s.horizon < 2 then 1 else s.horizon - 1;
    Demand(last.id, last.group, Ewma(pressure), AtMostOne(|pressure| as real / least as real), last.cpu)
  }

  method PressuresOf(history: seq<Sample>) returns (pressure: seq<real>)
    ensures pressure == Pressures(history)
  {
    pressure := [];
    if history == [] {
      return;
    }
    for i := 1 to |history|
      invariant pressure == Pressures(history[..i])
    {
      assert history[..i + 1][..i] == history[..i];
      var p := Pressure(history[i - 1], history[i]);
      if p.Some? {
        pressure := pressure + [p.value];
      }
    }
    assert history[..|history|] == history;
  }

  /** Lines 132-152. */
  method Measure(s: Scale, history: seq<Sample>) returns (d: Demand)
    requires history != []
    ensures d == DemandOf(s, history) && Unit(d.demand) && Unit(d.confidence)
  {
    var pressure := PressuresOf(history);
    var ewma, first := 0.0, true;
    for i := 0 to |pressure|
      invariant ewma == Ewma(pressure[..i]) && first == (i == 0)
    {
      assert pressure[..i + 1][..i] == pressure[..i];
      ewma := if first then pressure[i] else 0.0645 * pressure[i] + 0.9355 * ewma;
      first := false;
    }
    assert pressure[..|pressure|] == pressure;
    EwmaUnit(pressure);
    var least := if s.horizon < 2 then 1 else s.horizon - 1;
    Quotient(|pressure| as real, least as real);
    var last := history[|history| - 1];
    d := Demand(last.id, last.group, ewma, AtMostOne(|pressure| as real / least as real), last.cpu);
  }

  // ----- the score of a relation -----

  datatype Relation = Relation(key: Key, activity: real, sync: real, share: real, stability: real, score: real, count: int)

  function Coverage(s: Scale, count: real): real {
    if s.horizon == 0 then 1.0 else AtMostOne(count / s.horizon as real)
  }

  function Variance(a: Aggregate): real {
    var c := a.count as real;
    var mean := if a.count == 0 then 0.0 else a.total / c;
    if a.count < 2 || mean <= 0.0 then 0.0 else Max(0.0, OnePass(a.count, a.total, a.squared))
  }

  function Variation(s: Scale, a: Aggregate): real {
    var mean := if a.count == 0 then 0.0 else a.total / a.count as real;
    if mean > 0.0 then s.sqrt(Variance(a)) / mean else 0.0
  }

  /** Line 224. */
  function Score(activity: real, stability: real, sync: real, share: real): real {
    100.0 * activity * stability * (0.7 * sync + 0.3 * share)
  }

  /** Lines 207-226. */
  function RelationOf(s: Scale, key: Key, a: Aggregate, left: real, right: real): Relation
    requires s.Valid() && a.count > 0
  {
    var c := a.count as real;
    VariationNonNegative(s, a);
    var activity := Normalized(s, s.sqrt(left * right), s.activity);
    var stability := Coverage(s, c) / (1.0 + Variation(s, a));
    var sync := Normalized(s, Max(a.forward, a.reverse) / c, s.sync);
    var share := Normalized(s, a.share / c, s.share) * Clamp(a.overlap / c);
    Relation(key, activity, sync, share, stability, Score(activity, stability, sync, share), a.count)
  }

  lemma VariationNonNegative(s: Scale, a: Aggregate)
    requires s.Valid()
    ensures Variation(s, a) >= 0.0
  {
    var mean := if a.count == 0 then 0.0 else a.total / a.count as real;
    if mean > 0.0 {
      assert Variance(a) >= 0.0;
      Quotient(s.sqrt(Variance(a)), mean);
    }
  }

  lemma ScoreRange(activity: real, stability: real, sync: real, share: real)
    requires Unit(activity) && Unit(stability) && Unit(sync) && Unit(share)
    ensures 0.0 <= Score(activity, stability, sync, share) <= 100.0
  {
    var mix := 0.7 * sync + 0.3 * share;
    UnitTimes(activity, stability);
    UnitTimes(activity * stability, mix);
    Hundred(activity, stability, mix);
  }

  lemma Hundred(a: real, b: real, c: real)
    ensures 100.0 * a * b * c == 100.0 * (a * b * c)
  {
  }

  /** All the parts of a relation are in [0, 1], and its score is in [0, 100]. */
  lemma RelationRange(s: Scale, key: Key, a: Aggregate, left: real, right: real)
    requires s.Valid() && a.count > 0
    ensures var r := RelationOf(s, key, a, left, right);
      Unit(r.activity) && Unit(r.sync) && Unit(r.share) && Unit(r.stability) && 0.0 <= r.score <= 100.0
  {
    var c, r := a.count as real, RelationOf(s, key, a, left, right);
    NormalizedUnit(s, s.sqrt(left * right), s.activity);
    NormalizedUnit(s, Max(a.forward, a.reverse) / c, s.sync);
    NormalizedUnit(s, a.share / c, s.share);
    UnitTimes(Normalized(s, a.share / c, s.share), Clamp(a.overlap / c));
    VariationNonNegative(s, a);
    if s.horizon > 0 {
      Quotient(c, s.horizon as real);
    }
    UnitOver(Coverage(s, c), Variation(s, a));
    ScoreRange(r.activity, r.stability, r.sync, r.share);
  }
}
