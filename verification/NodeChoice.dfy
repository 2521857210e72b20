/** Choosing the NUMA nodes of a domain (src/domain_solver.cpp:42-188): what a set of nodes
costs, and the search over all sets of nodes for the best one with enough capacity. */
module NodeChoice {
  import opened Lists
  import opened Counting
  import opened Topology
  import opened Threads

  /** A family of threads, by the rank of its name in string order. */
  type Family = nat

  /** Relation between two families, smaller name first. */
  type Pair = (Family, Family)

  function MinMax(a: Family, b: Family): Pair {
    if b < a then (b, a) else (a, b)
  }

  datatype Question = Question(
    hw: Machine,
    demand: real,
    ratio: real,
    members: seq<Thread>,
    threads: seq<Thread>,
    placed: seq<(seq<Family>, seq<int>)>,
    families: seq<Family>,
    cross: map<Pair, real>)

  datatype Choice = Choice(
    nodes: seq<int>,
    cpus: nat,
    limit: real,
    headroom: real,
    latency: real,
    background: real,
    migrations: int)

  /** Lines 42-52: the CPUs of some nodes. */
  function MaskFor(hw: Machine, nodes: seq<int>): set<int> {
    set k | k in NodeMap(hw) && NodeMap(hw)[k] in nodes
  }

  /** Lines 77-83. */
  predicate OnNodes(hw: Machine, cpu: int, nodes: seq<int>) {
    cpu in NodeMap(hw) && NodeMap(hw)[cpu] in nodes
  }

  // ----- what a set of nodes costs -----

  function Migrations(hw: Machine, members: seq<Thread>, nodes: seq<int>): int {
    if members == [] then 0
    else
      var n := |members| - 1;
      Migrations(hw, members[..n], nodes) + if OnNodes(hw, members[n].cpu, nodes) then 0 else 1
  }

  function Background(hw: Machine, inside: set<int>, threads: seq<Thread>, nodes: seq<int>): real {
    if threads == [] then 0.0
    else
      var n := |threads| - 1;
      Background(hw, inside, threads[..n], nodes)
      + if threads[n].id.tid !in inside && OnNodes(hw, threads[n].cpu, nodes) then threads[n].demand else 0.0
  }

  function RelationOf(cross: map<Pair, real>, a: Family, b: Family): real {
    if MinMax(a, b) in cross then cross[MinMax(a, b)] else 0.0
  }

  function WeightTo(cross: map<Pair, real>, a: Family, others: seq<Family>): real {
    if others == [] then 0.0
    else WeightTo(cross, a, others[..|others| - 1]) + RelationOf(cross, a, others[|others| - 1])
  }

  function Weight(cross: map<Pair, real>, families: seq<Family>, others: seq<Family>): real {
    if families == [] then 0.0
    else Weight(cross, families[..|families| - 1], others) + WeightTo(cross, families[|families| - 1], others)
  }

  const FAR: real := 1000000000000000000000000000000.0

  function Distance(hw: Machine, a: int, b: int): real {
    if (a, b) in hw.nodeDistance then hw.nodeDistance[(a, b)] else 1000000.0
  }

  function Min(a: real, b: real): real {
    if b < a then b else a
  }

  function NearestFrom(hw: Machine, a: int, others: seq<int>, start: real): real {
    if others == [] then start
    else Min(NearestFrom(hw, a, others[..|others| - 1], start), Distance(hw, a, others[|others| - 1]))
  }

  function Nearest(hw: Machine, nodes: seq<int>, others: seq<int>): real {
    if nodes == [] then FAR
    else NearestFrom(hw, nodes[|nodes| - 1], others, Nearest(hw, nodes[..|nodes| - 1], others))
  }

  function Pull(q: Question, other: (seq<Family>, seq<int>), nodes: seq<int>): real {
    var d := Nearest(q.hw, nodes, other.1);
    Weight(q.cross, q.families, other.0) * (if d == FAR then 0.0 else d)
  }

  function RelationLatency(q: Question, placed: seq<(seq<Family>, seq<int>)>, nodes: seq<int>): real {
    if placed == [] then 0.0
    else RelationLatency(q, placed[..|placed| - 1], nodes) + Pull(q, placed[|placed| - 1], nodes)
  }

  function TidsIn(members: seq<Thread>): set<int> {
    set m | m in members :: m.id.tid
  }

  /** The costs of a set of nodes, without loops. */
  function Costs(q: Question, nodes: seq<int>): Choice {
    var cpus := |MaskFor(q.hw, nodes)|;
    Choice(nodes, cpus, cpus as real * q.ratio, cpus as real * q.ratio - q.demand,
           RelationLatency(q, q.placed, nodes),
           Background(q.hw, TidsIn(q.members), q.threads, nodes),
           Migrations(q.hw, q.members, nodes))
  }

  /** Least distance between two sets of nodes. */
  method NearestDistance(hw: Machine, nodes: seq<int>, others: seq<int>) returns (d: real)
    ensures d == Nearest(hw, nodes, others)
  {
    d := FAR;
    for i := 0 to |nodes|
      invariant d == Nearest(hw, nodes[..i], others)
    {
      ghost var start := d;
      for j := 0 to |others|
        invariant d == NearestFrom(hw, nodes[i], others[..j], start)
      {
        assert others[..j + 1][..j] == others[..j];
        d := Min(d, Distance(hw, nodes[i], others[j]));
      }
      assert others[..|others|] == others;
      assert nodes[..i + 1][..i] == nodes[..i];
    }
    assert nodes[..|nodes|] == nodes;
  }

  method TotalWeight(cross: map<Pair, real>, families: seq<Family>, others: seq<Family>) returns (w: real)
    ensures w == Weight(cross, families, others)
  {
    w := 0.0;
    for i := 0 to |families|
      invariant w == Weight(cross, families[..i], others)
    {
      ghost var start := w;
      for j := 0 to |others|
        invariant w == start + WeightTo(cross, families[i], others[..j])
      {
        assert others[..j + 1][..j] == others[..j];
        w := w + RelationOf(cross, families[i], others[j]);
      }
      assert others[..|others|] == others;
      assert families[..i + 1][..i] == families[..i];
    }
    assert families[..|families|] == families;
  }

  /** Lines 113-115. */
  method CountMigrations(hw: Machine, members: seq<Thread>, nodes: seq<int>) returns (migrations: int)
    ensures migrations == Migrations(hw, members, nodes)
  {
    hide OnNodes;
    migrations := 0;
    for i := 0 to |members|
      invariant migrations == Migrations(hw, members[..i], nodes)
    {
      assert members[..i + 1][..i] == members[..i];
      if !OnNodes(hw, members[i].cpu, nodes) {
        migrations := migrations + 1;
      }
    }
    assert members[..|members|] == members;
  }

  /** Lines 116-119. */
  method BackgroundDemand(hw: Machine, inside: set<int>, threads: seq<Thread>, nodes: seq<int>) returns (background: real)
    ensures background == Background(hw, inside, threads, nodes)
  {
    hide OnNodes;
    background := 0.0;
    for i := 0 to |threads|
      invariant background == Background(hw, inside, threads[..i], nodes)
    {
      assert threads[..i + 1][..i] == threads[..i];
      if threads[i].id.tid !in inside && OnNodes(hw, threads[i].cpu, nodes) {
        background := background + threads[i].demand;
      }
    }
    assert threads[..|threads|] == threads;
  }

  /** `evaluate_nodes` (lines 97-138). */
  method EvaluateNodes(q: Question, nodes: seq<int>) returns (r: Choice)
    ensures r == Costs(q, nodes)
  {
    hide Nearest, Weight, MaskFor, Migrations, Background, TidsIn;
    var cpus := |MaskFor(q.hw, nodes)|;
    var migrations := CountMigrations(q.hw, q.members, nodes);
    var background := BackgroundDemand(q.hw, TidsIn(q.members), q.threads, nodes);
    var latency := 0.0;
    for i := 0 to |q.placed|
      invariant latency == RelationLatency(q, q.placed[..i], nodes)
    {
      assert q.placed[..i + 1][..i] == q.placed[..i];
      var weight := TotalWeight(q.cross, q.families, q.placed[i].0);
      var distance := NearestDistance(q.hw, nodes, q.placed[i].1);
      latency := latency + weight * (if distance == FAR then 0.0 else distance);
    }
    assert q.placed[..|q.placed|] == q.placed;
    r := Choice(nodes, cpus, cpus as real * q.ratio, cpus as real * q.ratio - q.demand, latency, background, migrations);
  }

  // ----- the order of choices -----

  function Reals(s: seq<int>): (r: seq<real>)
    ensures |r| == |s|
    ensures forall i :: 0 <= i < |s| ==> r[i] == s[i] as real
  {
    seq(|s|, i requires 0 <= i < |s| => s[i] as real)
  }

  /** Fewest nodes, then least relation latency, background demand and migrations, then the
  least list of nodes. */
  function Rank(c: Choice): seq<real> {
    [|c.nodes| as real, c.latency, c.background, c.migrations as real] + Reals(c.nodes)
  }

  /** `std::vector::operator<`. */
  predicate ListLess(a: seq<int>, b: seq<int>) {
    b != [] && (a == [] || a[0] < b[0] || (a[0] == b[0] && ListLess(a[1..], b[1..])))
  }

  /** Lines 162-176. */
  predicate Improves(a: Choice, b: Choice) {
    || |a.nodes| < |b.nodes|
    || (|a.nodes| == |b.nodes| && a.latency < b.latency)
    || (|a.nodes| == |b.nodes| && a.latency == b.latency && a.background < b.background)
    || (|a.nodes| == |b.nodes| && a.latency == b.latency && a.background == b.background && a.migrations < b.migrations)
    || (|a.nodes| == |b.nodes| && a.latency == b.latency && a.background == b.background && a.migrations == b.migrations
        && ListLess(a.nodes, b.nodes))
  }

  lemma {:induction false} ListLessIsLex(a: seq<int>, b: seq<int>)
    ensures ListLess(a, b) <==> LexLess(Reals(a), Reals(b))
  {
    if a != [] && b != [] {
      ListLessIsLex(a[1..], b[1..]);
      assert Reals(a)[1..] == Reals(a[1..]) && Reals(b)[1..] == Reals(b[1..]);
    }
  }

  lemma LexStep(x: real, a: seq<real>, y: real, b: seq<real>)
    ensures LexLess([x] + a, [y] + b) <==> x < y || (x == y && LexLess(a, b))
  {
    assert ([x] + a)[1..] == a && ([y] + b)[1..] == b;
  }

  lemma RankIs(a: Choice)
    ensures Rank(a) == [|a.nodes| as real] + ([a.latency] + ([a.background] + ([a.migrations as real] + Reals(a.nodes))))
  {
    hide Reals;
  }

  lemma ImprovesIsLex(a: Choice, b: Choice)
    ensures Improves(a, b) <==> LexLess(Rank(a), Rank(b))
  {
    hide LexLess, Rank, ListLess, Reals;
    RankIs(a);
    RankIs(b);
    ListLessIsLex(a.nodes, b.nodes);
    var ra, rb := Reals(a.nodes), Reals(b.nodes);
    var ma, mb := [a.migrations as real] + ra, [b.migrations as real] + rb;
    var ba, bb := [a.background] + ma, [b.background] + mb;
    LexStep(a.migrations as real, ra, b.migrations as real, rb);
    LexStep(a.background, ma, b.background, mb);
    LexStep(a.latency, ba, b.latency, bb);
    LexStep(|a.nodes| as real, [a.latency] + ba, |b.nodes| as real, [b.latency] + bb);
  }

  lemma ImprovesTransitive(a: Choice, b: Choice, c: Choice)
    requires Improves(a, b) && Improves(b, c)
    ensures Improves(a, c)
  {
    ImprovesIsLex(a, b);
    ImprovesIsLex(b, c);
    ImprovesIsLex(a, c);
    hide Improves, Rank;
    LexTransitive(Rank(a), Rank(b), Rank(c));
  }

  lemma ImprovesIrreflexive(a: Choice)
    ensures !Improves(a, a)
  {
    ImprovesIsLex(a, a);
    hide Improves, Rank;
    LexIrreflexive(Rank(a));
  }

  /** Of two different lists of nodes one is better. */
  lemma ImprovesTotal(q: Question, a: seq<int>, b: seq<int>)
    ensures a == b || Improves(Costs(q, a), Costs(q, b)) || Improves(Costs(q, b), Costs(q, a))
  {
    var x, y := Costs(q, a), Costs(q, b);
    ImprovesIsLex(x, y);
    ImprovesIsLex(y, x);
    LexTotal(Rank(x), Rank(y));
    if Rank(x) == Rank(y) {
      SameRank(x, y);
    }
    hide Improves, Rank, RelationLatency, Background, Migrations, MaskFor;
  }

  lemma SameRank(x: Choice, y: Choice)
    requires Rank(x) == Rank(y)
    ensures x.nodes == y.nodes
  {
    assert |Rank(x)| == |Rank(y)|;
    forall i | 0 <= i < |x.nodes|
      ensures x.nodes[i] == y.nodes[i]
    {
      assert Rank(x)[4 + i] == x.nodes[i] as real && Rank(y)[4 + i] == y.nodes[i] as real;
    }
  }

  // ----- the search -----

  /** Line 161: the capacity of the nodes suffices. */
  predicate Fits(q: Question, nodes: seq<int>) {
    Costs(q, nodes).headroom + EPS >= 0.0
  }

  /** All selections from a list, in order. */
  ghost function Picks(nodes: seq<int>): iset<seq<int>> {
    if nodes == [] then iset{[]}
    else iset p | p in Picks(nodes[1..]) || (p != [] && p[0] == nodes[0] && p[1..] in Picks(nodes[1..]))
  }

  /** `best` is the best of an earlier best and of those candidates in `all` that fit. */
  ghost predicate BestOf(q: Question, before: Option<Choice>, best: Option<Choice>, all: iset<seq<int>>) {
    && (best.None? ==> before.None? && forall c :: c in all && c != [] ==> !Fits(q, c))
    && (best.Some? ==>
          && (best == before || (exists c :: c in all && c != [] && Fits(q, c) && best.value == Costs(q, c)))
          && (before.Some? ==> !Improves(before.value, best.value))
          && (forall c :: c in all && c != [] && Fits(q, c) ==> !Improves(Costs(q, c), best.value)))
  }

  /** The recursive search with its shared candidate and best choice (lines 153-185). */
  class Search {
    const q: Question
    const nodes: seq<int>
    var candidate: seq<int>
    var best: Option<Choice>

    constructor (q: Question)
      ensures this.q == q && nodes == Nodes(q.hw) && candidate == [] && best == None
    {
      this.q, nodes, candidate, best := q, Nodes(q.hw), [], None;
    }

    method Leaf()
      modifies this`best
      ensures BestOf(q, old(best), best, iset{candidate})
    {
      hide Costs, Improves;
      if candidate == [] {
        if best.Some? {
          ImprovesIrreflexive(best.value);
        }
        return;
      }
      var current := EvaluateNodes(q, candidate);
      if current.headroom + EPS < 0.0 {
        if best.Some? {
          ImprovesIrreflexive(best.value);
        }
        return;
      }
      if best.Some? {
        Asymmetric(current, best.value);
        ImprovesIrreflexive(best.value);
      }
      ImprovesIrreflexive(current);
      if best.None? || Improves(current, best.value) {
        best := Some(current);
      }
    }

    method Visit(index: nat)
      requires index <= |nodes|
      modifies this`candidate, this`best
      ensures candidate == old(candidate)
      ensures BestOf(q, old(best), best, Completions(candidate, nodes[index..]))
      decreases |nodes| - index
    {
      hide BestOf, Completions;
      ghost var base := candidate;
      if index == |nodes| {
        Leaf();
        NoMore(base);
        assert nodes[index..] == [];
        return;
      }
      ghost var before := best;
      candidate := candidate + [nodes[index]];
      Visit(index + 1);
      ghost var middle := best;
      candidate := candidate[..|candidate| - 1];
      assert candidate == base;
      Visit(index + 1);
      BestOfBoth(q, before, middle, best, Completions(base + [nodes[index]], nodes[index + 1..]), Completions(base, nodes[index + 1..]));
      OneMore(base, nodes[index..]);
      assert nodes[index..][0] == nodes[index] && nodes[index..][1..] == nodes[index + 1..];
    }
  }

  /** The candidates that extend a list by a selection. */
  ghost function Completions(base: seq<int>, rest: seq<int>): iset<seq<int>> {
    iset c | |base| <= |c| && c[..|base|] == base && c[|base|..] in Picks(rest)
  }

  lemma NoMore(base: seq<int>)
    ensures Completions(base, []) == iset{base}
  {
    assert forall c :: c in Completions(base, []) <==> c == base by {
      forall c: seq<int> | |base| <= |c|
        ensures c == c[..|base|] + c[|base|..]
      {
      }
      assert base[|base|..] == [];
    }
  }

  lemma OneMore(base: seq<int>, rest: seq<int>)
    requires rest != []
    ensures Completions(base, rest) == Completions(base + [rest[0]], rest[1..]) + Completions(base, rest[1..])
  {
    forall c
      ensures c in Completions(base, rest) <==> c in Completions(base + [rest[0]], rest[1..]) || c in Completions(base, rest[1..])
    {
      if |base| <= |c| && c[..|base|] == base {
        var p := c[|base|..];
        if p != [] {
          assert c[..|base| + 1] == base + [p[0]];
          assert c[|base| + 1..] == p[1..];
        }
        if |base| < |c| && c[..|base| + 1] == base + [rest[0]] {
          assert c[|base|] == rest[0];
        }
      } else if |base| < |c| {
        assert c[..|base| + 1][..|base|] == c[..|base|];
        assert (base + [rest[0]])[..|base|] == base;
      }
    }
  }

  lemma Asymmetric(a: Choice, b: Choice)
    ensures !(Improves(a, b) && Improves(b, a))
  {
    hide Improves;
    if Improves(a, b) && Improves(b, a) {
      ImprovesTransitive(a, b, a);
      ImprovesIrreflexive(a);
    }
  }

  /** Negative transitivity: what does not improve on a choice does not improve on a better one. */
  lemma NotWorse(q: Question, a: Choice, b: Choice, c: Choice)
    requires !Improves(a, b) && !Improves(b, c)
    ensures !Improves(a, c)
  {
    ImprovesIsLex(a, b);
    ImprovesIsLex(b, c);
    ImprovesIsLex(a, c);
    hide Improves, Rank;
    LexTotal(Rank(a), Rank(b));
    LexTotal(Rank(b), Rank(c));
    if LexLess(Rank(a), Rank(c)) {
      if LexLess(Rank(b), Rank(a)) {
        LexTransitive(Rank(b), Rank(a), Rank(c));
      }
    }
  }

  lemma BestOfBoth(q: Question, before: Option<Choice>, middle: Option<Choice>, best: Option<Choice>, first: iset<seq<int>>, second: iset<seq<int>>)
    requires BestOf(q, before, middle, first) && BestOf(q, middle, best, second)
    ensures BestOf(q, before, best, first + second)
  {
    hide Improves, Costs, Fits;
    if best.Some? {
      if before.Some? {
        NotWorse(q, before.value, middle.value, best.value);
      }
      forall c | c in first + second && c != [] && Fits(q, c)
        ensures !Improves(Costs(q, c), best.value)
      {
        if c in first {
          NotWorse(q, Costs(q, c), middle.value, best.value);
        }
      }
    }
  }

  // ----- the result -----

  /** The selections from an ascending list are the ascending lists of its elements. */
  lemma {:induction false} PicksAre(nodes: seq<int>, p: seq<int>)
    requires Increasing(nodes)
    ensures p in Picks(nodes) <==> Increasing(p) && forall n :: n in p ==> n in nodes
    decreases |nodes|
  {
    if nodes == [] {
      if p != [] {
        assert p[0] in p;
      }
    } else {
      var first, rest := nodes[0], nodes[1..];
      assert nodes == [first] + rest;
      PicksAre(rest, p);
      if p != [] {
        PicksAre(rest, p[1..]);
        PickTail(nodes, p);
      }
    }
  }

  /** The nodes in a list are a choice of others, in order. */
  predicate PicksFrom(nodes: seq<int>, p: seq<int>) {
    Increasing(p) && forall n :: n in p ==> n in nodes
  }

  lemma PickTail(nodes: seq<int>, p: seq<int>)
    requires Increasing(nodes) && nodes != [] && p != []
    ensures (Increasing(p) && forall n :: n in p ==> n in nodes) <==>
      || (Increasing(p) && forall n :: n in p ==> n in nodes[1..])
      || (p[0] == nodes[0] && Increasing(p[1..]) && forall n :: n in p[1..] ==> n in nodes[1..])
  {
    hide Increasing;
    if PicksFrom(nodes, p) {
      PickSplits(nodes, p);
    }
    if PicksFrom(nodes[1..], p) {
      PickWider(nodes, p);
    }
    if p[0] == nodes[0] && PicksFrom(nodes[1..], p[1..]) {
      PickJoins(nodes, p);
    }
  }

  lemma FirstBelow(nodes: seq<int>)
    requires Increasing(nodes) && nodes != []
    ensures forall n :: n in nodes[1..] ==> nodes[0] < n && n in nodes
    ensures Increasing(nodes[1..])
  {
    var rest := nodes[1..];
    forall n | n in rest
      ensures nodes[0] < n && n in nodes
    {
      var i :| 0 <= i < |rest| && rest[i] == n;
      assert nodes[i + 1] == n;
    }
  }

  lemma PickSplits(nodes: seq<int>, p: seq<int>)
    requires Increasing(nodes) && nodes != [] && p != [] && PicksFrom(nodes, p)
    ensures PicksFrom(nodes[1..], p) || (p[0] == nodes[0] && PicksFrom(nodes[1..], p[1..]))
  {
    FirstBelow(p);
    FirstBelow(nodes);
    hide Increasing;
    assert nodes == [nodes[0]] + nodes[1..] && p == [p[0]] + p[1..];
    assert p[0] in p;
  }

  lemma PickWider(nodes: seq<int>, p: seq<int>)
    requires nodes != [] && PicksFrom(nodes[1..], p)
    ensures PicksFrom(nodes, p)
  {
    hide Increasing;
    assert nodes == [nodes[0]] + nodes[1..];
  }

  lemma PickJoins(nodes: seq<int>, p: seq<int>)
    requires Increasing(nodes) && nodes != [] && p != [] && p[0] == nodes[0] && PicksFrom(nodes[1..], p[1..])
    ensures PicksFrom(nodes, p)
  {
    FirstBelow(nodes);
    var tail := p[1..];
    assert p == [p[0]] + tail;
    forall i, j | 0 <= i < j < |p|
      ensures p[i] < p[j]
    {
      assert p[j] == tail[j - 1];
      assert tail[j - 1] in tail;
      if i > 0 {
        assert p[i] == tail[i - 1];
      }
    }
  }

  /** More nodes have at least as many CPUs. */
  lemma FitsGrows(q: Question, few: seq<int>, many: seq<int>)
    requires q.ratio >= 0.0 && Fits(q, few) && forall n :: n in few ==> n in many
    ensures Fits(q, many)
  {
    var a, b := MaskFor(q.hw, few), MaskFor(q.hw, many);
    forall k | k in a
      ensures k in b
    {
      assert NodeMap(q.hw)[k] in few;
    }
    SubsetCard(a, b);
    TimesRatio(|a|, |b|, q.ratio);
    hide MaskFor, RelationLatency, Background, Migrations;
  }

  lemma TimesRatio(a: nat, b: nat, ratio: real)
    requires a <= b && ratio >= 0.0
    ensures a as real * ratio <= b as real * ratio
  {
  }

  lemma NodesAscend(hw: Machine)
    ensures Increasing(Nodes(hw)) && Nodes(hw) != []
  {
    NodesCover(hw);
  }

  /** A list of nodes in ascending order. */
  predicate NodeList(hw: Machine, nodes: seq<int>) {
    nodes != [] && Increasing(nodes) && forall n :: n in nodes ==> n in Nodes(hw)
  }

  /** `choose_nodes` (lines 143-188): the one best set of nodes that fits; nothing exactly when
  all nodes together do not fit. */
  method ChooseNodes(q: Question) returns (r: Option<Choice>)
    requires q.ratio >= 0.0
    ensures r.None? <==> !Fits(q, Nodes(q.hw))
    ensures r.Some? ==> NodeList(q.hw, r.value.nodes) && Fits(q, r.value.nodes) && r.value == Costs(q, r.value.nodes)
    ensures r.Some? ==> forall c :: NodeList(q.hw, c) && Fits(q, c) && c != r.value.nodes ==> Improves(r.value, Costs(q, c))
  {
    hide Fits, Costs, Improves, Nodes;
    var all := Nodes(q.hw);
    var search := new Search(q);
    search.Visit(0);
    r := search.best;
    assert all[0..] == all;
    NodesAscend(q.hw);
    hide Picks, Increasing;
    forall c: seq<int>
      ensures c in Completions([], all) <==> c in Picks(all)
    {
      assert c[..0] == [] && c[0..] == c;
    }
    Chosen(q, r, all);
  }

  lemma Chosen(q: Question, r: Option<Choice>, all: seq<int>)
    requires q.ratio >= 0.0 && all == Nodes(q.hw) && Increasing(all) && all != []
    requires BestOf(q, None, r, Completions([], all))
    requires forall c: seq<int> :: c in Completions([], all) <==> c in Picks(all)
    ensures r.None? <==> !Fits(q, all)
    ensures r.Some? ==> NodeList(q.hw, r.value.nodes) && Fits(q, r.value.nodes) && r.value == Costs(q, r.value.nodes)
    ensures r.Some? ==> forall c :: NodeList(q.hw, c) && Fits(q, c) && c != r.value.nodes ==> Improves(r.value, Costs(q, c))
  {
    hide Fits, Costs, Improves, Nodes, Picks, Completions, Increasing;
    forall c: seq<int>
      ensures c in Picks(all) <==> Increasing(c) && forall n :: n in c ==> n in all
    {
      PicksAre(all, c);
    }
    if r.None? {
      assert all in Completions([], all);
    } else {
      var c :| c in Completions([], all) && c != [] && Fits(q, c) && r.value == Costs(q, c);
      CostsNodes(q, c);
      FitsGrows(q, c, all);
      forall d | NodeList(q.hw, d) && Fits(q, d) && d != c
        ensures Improves(r.value, Costs(q, d))
      {
        assert d in Completions([], all);
        ImprovesTotal(q, c, d);
      }
    }
  }

  lemma CostsNodes(q: Question, c: seq<int>)
    ensures Costs(q, c).nodes == c
  {
  }
}
