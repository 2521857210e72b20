/** The node planning phase of `IncrementalSolver::propose` (src/solver.cpp:806-1061): a
greedy partition of the threads over NUMA nodes under population caps, repair of the
population floors, capacity-neutral swaps, and a CPU for every thread of every node. */
module NodePlanner {
  import opened Lists
  import opened Counting
  import opened Topology
  import opened Threads

  /** Everything one planning round reads: the per-node tables of lines 802-820 and the
  thread records, both as the source keeps them in local maps. */
  datatype Round = Round(
    nodes: seq<int>,
    size: map<int, int>,
    cap: map<int, int>,
    floor: map<int, int>,
    tids: seq<int>,
    demand: map<int, real>,
    ids: map<int, Identity>,
    home: map<int, int>,
    latency: (int, int) -> real,
    edges: seq<Edge>)
  {
    predicate Valid() {
      && nodes != [] && Distinct(nodes) && Distinct(tids)
      && (forall n :: n in nodes ==> n in size && n in cap && n in floor)
      && (forall e :: e in edges ==> e.from != e.to && e.from in tids && e.to in tids)
    }

    function Demand(t: int): real {
      GetReal(demand, t)
    }

    function IdKey(t: int): seq<real> {
      if t in ids then IdentityKey(ids[t]) else []
    }
  }

  /** The caps leave room for every thread; floors never exceed caps or the population. */
  predicate Feasible(r: Round) {
    && |r.tids| <= Sum(r.nodes, n => Get(r.cap, n))
    && Sum(r.nodes, n => Get(r.floor, n)) <= |r.tids|
    && (forall n :: n in r.nodes ==> 0 <= Get(r.floor, n) <= Get(r.cap, n))
  }

  /** Every thread has a node of the machine. */
  ghost predicate Partition(r: Round, at: map<int, int>) {
    && (forall t :: t in at <==> t in r.tids)
    && (forall t :: t in at ==> at[t] in r.nodes)
  }

  predicate WithinCaps(r: Round, at: map<int, int>) {
    forall n :: n in r.nodes ==> Count(at, n) <= Get(r.cap, n)
  }

  predicate WithinFloors(r: Round, at: map<int, int>) {
    forall n :: n in r.nodes ==> Get(r.floor, n) <= Count(at, n)
  }

  // ----- arithmetic of caps and floors -----

  /** Proportional share of `m` threads for a node with `size` of the `total` CPUs. */
  function Share(m: nat, size: nat, total: nat): real
    requires total > 0
  {
    m as real * size as real / total as real
  }

  function CapOf(m: nat, size: nat, total: nat, slack: real, slot: int): int
    requires total > 0
  {
    var soft := Ceil(Share(m, size, total) * (1.0 + slack));
    var hard := slot * size;
    if soft < hard then soft else hard
  }

  function FloorOf(m: nat, size: nat, total: nat, slack: real): int
    requires total > 0
  {
    (Share(m, size, total) * (1.0 - slack)).Floor
  }

  lemma QuotientTimes(a: real, c: real)
    requires c > 0.0
    ensures a / c * c == a
  {
  }

  lemma ShareBounds(m: nat, size: nat, total: nat, slack: real)
    requires total > 0 && 0.0 <= slack
    ensures Share(m, size, total) >= 0.0
    ensures Share(m, size, total) * total as real == (m * size) as real
    ensures Share(m, size, total) * (1.0 - slack) <= Share(m, size, total)
    ensures Share(m, size, total) <= Share(m, size, total) * (1.0 + slack)
  {
    var s := Share(m, size, total);
    var a := m as real * size as real;
    assert a == (m * size) as real;
    QuotientTimes(a, total as real);
    assert s * total as real == a;
    NonNegative(s, total as real);
    assert s * slack >= 0.0;
    assert s * (1.0 + slack) == s + s * slack;
    assert s * (1.0 - slack) == s - s * slack;
  }

  lemma NonNegative(s: real, t: real)
    requires t > 0.0 && s * t >= 0.0
    ensures s >= 0.0
  {
  }

  lemma MulMono(a: real, b: real, c: real)
    requires a <= b && c >= 0.0
    ensures a * c <= b * c
  {
  }

  lemma RealProduct(a: int, b: int, k: int)
    requires a as real * b as real >= k as real
    ensures a * b >= k
  {
    assert (a * b) as real == a as real * b as real;
  }

  lemma SlotProduct(m: nat, size: nat, total: nat, slot: int)
    requires m <= slot * total
    ensures size * m <= slot * size * total
  {
    var k := slot * total;
    assert size * m <= size * k;
    assert size * k == slot * size * total;
  }

  lemma CeilAbove(x: real, y: real)
    requires x <= y
    ensures x <= Ceil(y) as real
  {
  }

  lemma SoftAboveShare(m: nat, size: nat, total: nat, slack: real)
    requires total > 0 && 0.0 <= slack
    ensures m * size <= Ceil(Share(m, size, total) * (1.0 + slack)) * total
  {
    ShareBounds(m, size, total, slack);
    hide Share, Ceil;
    var s, grown := Share(m, size, total), Share(m, size, total) * (1.0 + slack);
    CeilAbove(s, grown);
    MulMono(s, Ceil(grown) as real, total as real);
    RealProduct(Ceil(grown), total, m * size);
  }

  lemma CapAboveShare(m: nat, size: nat, total: nat, slack: real, slot: int)
    requires total > 0 && 0.0 <= slack && m <= slot * total
    ensures size * m <= CapOf(m, size, total, slack, slot) * total
  {
    SoftAboveShare(m, size, total, slack);
    SlotProduct(m, size, total, slot);
    Commutes(size, m);
    hide Share, Ceil;
  }

  lemma Commutes(a: int, b: int)
    ensures a * b == b * a
  {
  }

  lemma FloorBelowShare(m: nat, size: nat, total: nat, slack: real)
    requires total > 0 && 0.0 <= slack
    ensures FloorOf(m, size, total, slack) * total <= size * m
  {
    ShareBounds(m, size, total, slack);
    var low := FloorOf(m, size, total, slack);
    MulMono(low as real, Share(m, size, total), total as real);
    assert (low * total) as real == low as real * total as real;
  }

  // ----- the tables of a round -----

  function CapTable(hw: Machine, m: nat, slack: real, slot: int): map<int, int> {
    map n | n in Nodes(hw) :: CapOf(m, NodeSize(hw, n), |hw.cpus|, slack, slot)
  }

  function FloorTable(hw: Machine, m: nat, slack: real): map<int, int> {
    map n | n in Nodes(hw) :: FloorOf(m, NodeSize(hw, n), |hw.cpus|, slack)
  }

  function SizeTable(hw: Machine): map<int, int> {
    map n | n in Nodes(hw) :: NodeSize(hw, n)
  }

  function MakeRound(hw: Machine, slack: real, slot: int, threads: map<int, Thread>,
                     baseline: map<int, int>, edges: seq<Edge>): Round
  {
    Round(Nodes(hw), SizeTable(hw), CapTable(hw, |threads|, slack, slot), FloorTable(hw, |threads|, slack),
          Ascending(threads.Keys),
          map t | t in threads :: threads[t].demand,
          map t | t in threads :: threads[t].id,
          map t | t in threads :: CpuNode(hw, Get(baseline, t)),
          (a, b) => NodeLatency(hw, a, b),
          edges)
  }

  /** The caps leave room for all threads as soon as the slots do. */
  lemma CapsHoldAll(hw: Machine, m: nat, slack: real, slot: int)
    requires 0.0 <= slack && m <= slot * |hw.cpus|
    ensures m <= Sum(Nodes(hw), n => Get(CapTable(hw, m, slack, slot), n))
  {
    var nodes, c, cap := Nodes(hw), |hw.cpus|, CapTable(hw, m, slack, slot);
    forall n | n in nodes
      ensures NodeSize(hw, n) * m <= Get(cap, n) * c
    {
      CapAboveShare(m, NodeSize(hw, n), c, slack, slot);
    }
    SumScale(nodes, n => NodeSize(hw, n), n => Get(cap, n), m, c);
    NodeSizesSum(hw);
    MulCancel(m, Sum(nodes, n => Get(cap, n)), c);
  }

  /** The floors never ask for more threads than there are. */
  lemma FloorsFit(hw: Machine, m: nat, slack: real)
    requires 0.0 <= slack
    ensures Sum(Nodes(hw), n => Get(FloorTable(hw, m, slack), n)) <= m
  {
    var nodes, c, floor := Nodes(hw), |hw.cpus|, FloorTable(hw, m, slack);
    forall n | n in nodes
      ensures Get(floor, n) * c <= NodeSize(hw, n) * m
    {
      FloorBelowShare(m, NodeSize(hw, n), c, slack);
    }
    SumScale(nodes, n => Get(floor, n), n => NodeSize(hw, n), c, m);
    NodeSizesSum(hw);
    MulCancel(Sum(nodes, n => Get(floor, n)), m, c);
  }

  lemma MulCancel(a: int, b: int, c: int)
    requires c > 0 && a * c <= b * c
    ensures a <= b
  {
  }

  lemma FloorBelowCap(m: nat, size: nat, total: nat, slack: real, slot: int)
    requires total > 0 && 0.0 <= slack && m <= slot * total
    ensures FloorOf(m, size, total, slack) <= CapOf(m, size, total, slack, slot)
  {
    CapAboveShare(m, size, total, slack, slot);
    FloorBelowShare(m, size, total, slack);
    MulCancel(FloorOf(m, size, total, slack), CapOf(m, size, total, slack, slot), total);
  }

  lemma FloorNonNegative(m: nat, size: nat, total: nat, slack: real)
    requires total > 0 && 0.0 <= slack <= 1.0
    ensures 0 <= FloorOf(m, size, total, slack)
  {
    ShareBounds(m, size, total, slack);
    MulMono(0.0, 1.0 - slack, Share(m, size, total));
  }

  /** If the slots suffice, a round can meet all its caps and floors. */
  lemma RoundFeasible(hw: Machine, slack: real, slot: int, threads: map<int, Thread>,
                      baseline: map<int, int>, edges: seq<Edge>)
    requires 0.0 <= slack <= 1.0 && |threads| <= slot * |hw.cpus|
    ensures Feasible(MakeRound(hw, slack, slot, threads, baseline, edges))
  {
    var r := MakeRound(hw, slack, slot, threads, baseline, edges);
    var m := |threads|;
    assert |r.tids| == |threads.Keys| == m;
    CapsHoldAll(hw, m, slack, slot);
    FloorsFit(hw, m, slack);
    SumEq(r.nodes, n => Get(CapTable(hw, m, slack, slot), n), n => Get(r.cap, n));
    SumEq(r.nodes, n => Get(FloorTable(hw, m, slack), n), n => Get(r.floor, n));
    forall n | n in r.nodes
      ensures 0 <= Get(r.floor, n) <= Get(r.cap, n)
    {
      FloorNonNegative(m, NodeSize(hw, n), |hw.cpus|, slack);
      FloorBelowCap(m, NodeSize(hw, n), |hw.cpus|, slack, slot);
    }
  }

  // ----- community order (lines 826-879) -----

  function PairKey(e: Edge): seq<real> {
    [e.score, -e.from as real, -e.to as real]
  }

  predicate Inside(e: Edge, remaining: set<int>) {
    e.from in remaining && e.to in remaining
  }

  predicate Crosses(e: Edge, remaining: set<int>) {
    (e.from in remaining) != (e.to in remaining)
  }

  /** The remaining thread of an edge that crosses. */
  function EntryOf(e: Edge, remaining: set<int>): int {
    if e.from in remaining then e.from else e.to
  }

  function EntryKey(e: Edge, remaining: set<int>): seq<real> {
    [e.score, -EntryOf(e, remaining) as real]
  }

  /** The heaviest edge inside `remaining`; of equally heavy ones that with the lowest ids. */
  ghost predicate BestPair(edges: seq<Edge>, remaining: set<int>, pair: Option<Edge>) {
    && (pair.Some? ==> pair.value in edges && Inside(pair.value, remaining))
    && (forall e :: e in edges && Inside(e, remaining) ==> pair.Some? && !LexLess(PairKey(pair.value), PairKey(e)))
  }

  /** The heaviest edge that crosses; of equally heavy ones that with the lowest remaining thread. */
  ghost predicate BestFrontier(edges: seq<Edge>, remaining: set<int>, frontier: Option<Edge>) {
    && (frontier.Some? ==> frontier.value in edges && Crosses(frontier.value, remaining))
    && (forall e :: e in edges && Crosses(e, remaining) ==>
          frontier.Some? && !LexLess(EntryKey(frontier.value, remaining), EntryKey(e, remaining)))
  }

  lemma PairMore(edges: seq<Edge>, i: nat, remaining: set<int>, pair: Option<Edge>)
    requires i < |edges| && BestPair(edges[..i], remaining, pair)
    ensures var e := edges[i];
      BestPair(edges[..i + 1], remaining,
               if Inside(e, remaining) && (pair.None? || LexLess(PairKey(pair.value), PairKey(e))) then Some(e) else pair)
  {
    hide PairKey, LexLess, Inside;
    var e, few, more := edges[i], edges[..i], edges[..i + 1];
    assert more == few + [e];
    LexIrreflexive(PairKey(e));
    forall x | x in few && Inside(x, remaining) && pair.Some? && LexLess(PairKey(pair.value), PairKey(e))
      ensures !LexLess(PairKey(e), PairKey(x))
    {
      LexAbove(PairKey(pair.value), PairKey(e), PairKey(x));
    }
  }

  lemma FrontierMore(edges: seq<Edge>, i: nat, remaining: set<int>, frontier: Option<Edge>)
    requires i < |edges| && BestFrontier(edges[..i], remaining, frontier)
    ensures var e := edges[i];
      BestFrontier(edges[..i + 1], remaining,
                   if Crosses(e, remaining) && (frontier.None? || LexLess(EntryKey(frontier.value, remaining), EntryKey(e, remaining)))
                   then Some(e) else frontier)
  {
    hide EntryKey, LexLess, Crosses;
    var e, few, more := edges[i], edges[..i], edges[..i + 1];
    assert more == few + [e];
    LexIrreflexive(EntryKey(e, remaining));
    forall x | x in few && Crosses(x, remaining) && frontier.Some? && LexLess(EntryKey(frontier.value, remaining), EntryKey(e, remaining))
      ensures !LexLess(EntryKey(e, remaining), EntryKey(x, remaining))
    {
      LexAbove(EntryKey(frontier.value, remaining), EntryKey(e, remaining), EntryKey(x, remaining));
    }
  }

  /** The best edge inside `remaining`, and the best edge that leaves it (lines 836-855). */
  method BestEdges(edges: seq<Edge>, remaining: set<int>) returns (pair: Option<Edge>, frontier: Option<Edge>)
    ensures BestPair(edges, remaining, pair) && BestFrontier(edges, remaining, frontier)
  {
    pair, frontier := None, None;
    for i := 0 to |edges|
      invariant BestPair(edges[..i], remaining, pair) && BestFrontier(edges[..i], remaining, frontier)
    {
      hide BestPair, BestFrontier, PairKey, EntryKey, LexLess;
      PairMore(edges, i, remaining, pair);
      FrontierMore(edges, i, remaining, frontier);
      var e := edges[i];
      if e.from in remaining && e.to in remaining {
        if pair.None? || LexLess(PairKey(pair.value), PairKey(e)) {
          pair := Some(e);
        }
      } else if (e.from in remaining) != (e.to in remaining) {
        if frontier.None? || LexLess(EntryKey(frontier.value, remaining), EntryKey(e, remaining)) {
          frontier := Some(e);
        }
      }
    }
    assert edges[..|edges|] == edges;
  }

  /** `ordered` lists, without repetition, the threads of the round that are not `remaining`. */
  ghost predicate Listed(r: Round, ordered: seq<int>, remaining: set<int>) {
    && Distinct(ordered)
    && (forall t :: t in remaining ==> t in r.tids)
    && (forall t :: t in ordered <==> t in r.tids && t !in remaining)
  }

  lemma ListOne(r: Round, ordered: seq<int>, remaining: set<int>, t: int)
    requires Listed(r, ordered, remaining) && t in remaining
    ensures Listed(r, ordered + [t], remaining - {t})
    ensures |remaining - {t}| < |remaining|
  {
    CardWithout(remaining, t);
    assert t !in ordered;
  }

  /** A relation leads from the thread at a position to an earlier one. */
  ghost predicate Joined(edges: seq<Edge>, ordered: seq<int>, i: nat)
    requires i < |ordered|
  {
    exists j, e :: 0 <= j < i && e in edges && Touches(e, ordered[i]) && Other(e, ordered[i]) == ordered[j]
  }

  /** Every thread that does not start a community is related to an earlier thread. */
  ghost predicate Communities(edges: seq<Edge>, ordered: seq<int>, seeds: set<int>) {
    forall i :: 0 <= i < |ordered| ==> ordered[i] in seeds || Joined(edges, ordered, i)
  }

  lemma CommunitySeed(edges: seq<Edge>, ordered: seq<int>, seeds: set<int>, t: int)
    requires Communities(edges, ordered, seeds)
    ensures Communities(edges, ordered + [t], seeds + {t})
  {
    var more := ordered + [t];
    forall i | 0 <= i < |ordered| && ordered[i] !in seeds
      ensures Joined(edges, more, i)
    {
      var j, e :| 0 <= j < i && e in edges && Touches(e, ordered[i]) && Other(e, ordered[i]) == ordered[j];
      assert more[i] == ordered[i] && more[j] == ordered[j];
    }
  }

  lemma CommunityJoin(edges: seq<Edge>, ordered: seq<int>, seeds: set<int>, t: int, e: Edge)
    requires Communities(edges, ordered, seeds) && e in edges && Touches(e, t) && Other(e, t) in ordered
    ensures Communities(edges, ordered + [t], seeds)
  {
    var more := ordered + [t];
    forall i | 0 <= i < |more| && more[i] !in seeds
      ensures Joined(edges, more, i)
    {
      if i < |ordered| {
        var j, d :| 0 <= j < i && d in edges && Touches(d, ordered[i]) && Other(d, ordered[i]) == ordered[j];
        assert more[i] == ordered[i] && more[j] == ordered[j];
      } else {
        var j :| 0 <= j < |ordered| && ordered[j] == Other(e, t);
        assert more[j] == ordered[j];
      }
    }
  }

  /** The heavier thread of a pair; of equally heavy ones that with the lower identity. */
  function Leader(r: Round, e: Edge): int {
    if r.Demand(e.to) > r.Demand(e.from) || (r.Demand(e.to) == r.Demand(e.from) && LexLess(r.IdKey(e.to), r.IdKey(e.from)))
    then e.to else e.from
  }

  /** The heaviest of the remaining threads; of equally heavy ones that with the lowest identity. */
  ghost predicate Heaviest(r: Round, remaining: set<int>, t: int) {
    t in remaining && forall u :: u in remaining ==> !LexLess([-r.Demand(u)] + r.IdKey(u), [-r.Demand(t)] + r.IdKey(t))
  }

  /** What comes next: the best pair starts a community if it is heavier than every edge to a listed
  thread, otherwise the best such edge brings its thread in, and without any edge the heaviest
  thread starts a community. */
  ghost predicate NextStep(r: Round, remaining: set<int>, step: seq<int>, starts: bool) {
    exists pair, frontier ::
      && BestPair(r.edges, remaining, pair) && BestFrontier(r.edges, remaining, frontier)
      && (if pair.Some? && (frontier.None? || pair.value.score > frontier.value.score)
          then starts && step == [Leader(r, pair.value), Other(pair.value, Leader(r, pair.value))]
          else if frontier.Some? then !starts && step == [EntryOf(frontier.value, remaining)]
          else starts && |step| == 1 && Heaviest(r, remaining, step[0]))
  }

  /** The steps of the ordering: who remained before each, whom it listed, whether it started a community. */
  datatype Ordering = Ordering(left: seq<set<int>>, steps: seq<seq<int>>, starts: seq<bool>)

  function AsSet(step: seq<int>): set<int> {
    set t | t in step
  }

  function Listing(steps: seq<seq<int>>): seq<int> {
    if steps == [] then [] else Listing(steps[..|steps| - 1]) + steps[|steps| - 1]
  }

  /** The threads that start a community. */
  function Starters(c: Ordering): set<int> {
    set k | 0 <= k < |c.steps| && k < |c.starts| && c.starts[k] && c.steps[k] != [] :: c.steps[k][0]
  }

  ghost predicate Ordered(r: Round, c: Ordering) {
    && |c.starts| == |c.steps| && |c.left| == |c.steps| + 1 && c.left[0] == (set t | t in r.tids)
    && (forall k :: 0 <= k < |c.steps| ==>
          && NextStep(r, c.left[k], c.steps[k], c.starts[k])
          && c.left[k + 1] == c.left[k] - AsSet(c.steps[k]))
  }

  lemma OrderedMore(r: Round, c: Ordering, step: seq<int>, starts: bool)
    requires Ordered(r, c) && NextStep(r, c.left[|c.steps|], step, starts) && step != []
    ensures var next := Ordering(c.left + [c.left[|c.steps|] - AsSet(step)], c.steps + [step], c.starts + [starts]);
      Ordered(r, next) && Listing(next.steps) == Listing(c.steps) + step
      && Starters(next) == Starters(c) + if starts then {step[0]} else {}
  {
    hide NextStep, AsSet, Starters;
    var n := |c.steps|;
    var next := Ordering(c.left + [c.left[n] - AsSet(step)], c.steps + [step], c.starts + [starts]);
    ListingMore(c.steps, step);
    hide Listing;
    forall k | 0 <= k < |next.steps|
      ensures NextStep(r, next.left[k], next.steps[k], next.starts[k]) && next.left[k + 1] == next.left[k] - AsSet(next.steps[k])
    {
      if k < n {
        assert next.left[k] == c.left[k] && next.left[k + 1] == c.left[k + 1] && next.steps[k] == c.steps[k] && next.starts[k] == c.starts[k];
      }
    }
    StartersMore(c, next, step, starts);
  }

  lemma ListingMore(steps: seq<seq<int>>, step: seq<int>)
    ensures Listing(steps + [step]) == Listing(steps) + step
  {
    assert (steps + [step])[..|steps|] == steps;
  }

  lemma StartersMore(c: Ordering, next: Ordering, step: seq<int>, starts: bool)
    requires |c.starts| == |c.steps| && next.steps == c.steps + [step] && next.starts == c.starts + [starts] && step != []
    ensures Starters(next) == Starters(c) + if starts then {step[0]} else {}
  {
    var n := |c.steps|;
    forall t
      ensures t in Starters(next) <==> t in Starters(c) + if starts then {step[0]} else {}
    {
      if t in Starters(c) {
        var k :| 0 <= k < n && c.starts[k] && c.steps[k] != [] && c.steps[k][0] == t;
        assert next.starts[k] && next.steps[k] == c.steps[k];
      }
      if starts && t == step[0] {
        assert next.starts[n] && next.steps[n][0] == t;
      }
      if t in Starters(next) {
        var k :| 0 <= k < |next.steps| && next.starts[k] && next.steps[k] != [] && next.steps[k][0] == t;
        assert k < n ==> c.starts[k] && c.steps[k] == next.steps[k];
      }
    }
  }

  /** The order so far, with what made it. */
  ghost predicate OrderIs(r: Round, c: Ordering, ordered: seq<int>, seeds: set<int>, remaining: set<int>) {
    Ordered(r, c) && remaining == c.left[|c.steps|] && ordered == Listing(c.steps) && seeds == Starters(c)
  }

  lemma OrderStarts(r: Round, remaining: set<int>)
    requires remaining == set t | t in r.tids
    ensures OrderIs(r, Ordering([remaining], [], []), [], {}, remaining)
    ensures Listed(r, [], remaining) && Communities(r.edges, [], {})
  {
  }

  lemma OrderGrows(r: Round, c: Ordering, ordered: seq<int>, seeds: set<int>, remaining: set<int>, step: seq<int>, starts: bool)
    returns (next: Ordering)
    requires OrderIs(r, c, ordered, seeds, remaining) && NextStep(r, remaining, step, starts) && step != []
    ensures OrderIs(r, next, ordered + step, if starts then seeds + {step[0]} else seeds, remaining - AsSet(step))
  {
    hide NextStep, AsSet, Starters, Listing, Ordered;
    OrderedShape(r, c);
    OrderedMore(r, c, step, starts);
    next := Ordering(c.left + [c.left[|c.steps|] - AsSet(step)], c.steps + [step], c.starts + [starts]);
    assert next.left[|next.steps|] == remaining - AsSet(step);
  }

  lemma OrderMeans(r: Round, c: Ordering, ordered: seq<int>, seeds: set<int>, remaining: set<int>)
    requires OrderIs(r, c, ordered, seeds, remaining)
    ensures Ordered(r, c) && ordered == Listing(c.steps) && seeds == Starters(c)
  {
    hide Ordered, Listing, Starters;
  }

  /** Orders the threads community by community, and marks where a community starts (lines 826-879). */
  method CommunityOrder(r: Round) returns (ordered: seq<int>, seeds: set<int>, ghost c: Ordering)
    requires r.Valid()
    ensures Distinct(ordered)
    ensures forall t :: t in ordered <==> t in r.tids
    ensures Communities(r.edges, ordered, seeds)
    ensures Ordered(r, c) && ordered == Listing(c.steps) && seeds == Starters(c)
  {
    hide *;
    ordered, seeds := [], {};
    var remaining := set t | t in r.tids;
    c := Ordering([remaining], [], []);
    OrderStarts(r, remaining);
    while remaining != {}
      invariant Listed(r, ordered, remaining) && Communities(r.edges, ordered, seeds) && OrderIs(r, c, ordered, seeds, remaining)
      decreases |remaining|
    {
      var step, starts := ChooseNext(r, ordered, remaining, seeds);
      c := OrderGrows(r, c, ordered, seeds, remaining, step, starts);
      ordered, seeds := ordered + step, if starts then seeds + {step[0]} else seeds;
      remaining := remaining - AsSet(step);
    }
    ListedAll(r, ordered);
    OrderMeans(r, c, ordered, seeds, remaining);
  }

  lemma OrderedShape(r: Round, c: Ordering)
    requires Ordered(r, c)
    ensures |c.left| == |c.steps| + 1
  {
    hide NextStep;
  }

  lemma ListedAll(r: Round, ordered: seq<int>)
    requires Listed(r, ordered, {})
    ensures Distinct(ordered) && forall t :: t in ordered <==> t in r.tids
  {
  }

  /** Lines 834-877: one round of the loop. */
  method ChooseNext(r: Round, ghost ordered: seq<int>, remaining: set<int>, ghost seeds: set<int>) returns (step: seq<int>, starts: bool)
    requires r.Valid() && remaining != {} && Listed(r, ordered, remaining) && Communities(r.edges, ordered, seeds)
    ensures NextStep(r, remaining, step, starts) && step != []
    ensures Listed(r, ordered + step, remaining - AsSet(step)) && |remaining - AsSet(step)| < |remaining|
    ensures Communities(r.edges, ordered + step, if starts then seeds + {step[0]} else seeds)
  {
    hide *;
    var pair, frontier := BestEdges(r.edges, remaining);
    if pair.Some? && (frontier.None? || pair.value.score > frontier.value.score) {
      var first := Leader(r, pair.value);
      var second := Other(pair.value, first);
      step, starts := [first, second], true;
      StepPair(r, ordered, remaining, seeds, pair, frontier);
    } else if frontier.Some? {
      step, starts := [EntryOf(frontier.value, remaining)], false;
      StepFrontier(r, ordered, remaining, seeds, pair, frontier);
    } else {
      Inhabited(remaining);
      var key := t => [-r.Demand(t)] + r.IdKey(t);
      var seed := ArgMin(Ascending(remaining), key);
      assert Heaviest(r, remaining, seed) by {
        HeaviestIs(r, remaining, seed, key);
      }
      step, starts := [seed], true;
      StepSeed(r, ordered, remaining, seeds, pair, frontier, seed);
    }
  }

  lemma HeaviestIs(r: Round, remaining: set<int>, t: int, key: int -> seq<real>)
    requires t in Ascending(remaining) && (forall u :: u in Ascending(remaining) ==> !LexLess(key(u), key(t)))
    requires forall u :: key(u) == [-r.Demand(u)] + r.IdKey(u)
    ensures Heaviest(r, remaining, t)
  {
    hide LexLess, Ascending;
  }

  lemma StepPair(r: Round, ordered: seq<int>, remaining: set<int>, seeds: set<int>, pair: Option<Edge>, frontier: Option<Edge>)
    requires r.Valid() && Listed(r, ordered, remaining) && Communities(r.edges, ordered, seeds)
    requires BestPair(r.edges, remaining, pair) && BestFrontier(r.edges, remaining, frontier)
    requires pair.Some? && (frontier.None? || pair.value.score > frontier.value.score)
    ensures var first := Leader(r, pair.value); var step := [first, Other(pair.value, first)];
      && NextStep(r, remaining, step, true)
      && Listed(r, ordered + step, remaining - AsSet(step)) && |remaining - AsSet(step)| < |remaining|
      && Communities(r.edges, ordered + step, seeds + {first})
  {
    var e := pair.value;
    var first := Leader(r, e);
    var second := Other(e, first);
    var step := [first, second];
    assert e.from != e.to && first in remaining && second in remaining && first != second;
    assert NextStep(r, remaining, step, true);
    hide NextStep, Listed, Communities, BestPair, BestFrontier, Round.Valid, Leader;
    ListOne(r, ordered, remaining, first);
    CommunitySeed(r.edges, ordered, seeds, first);
    ListOne(r, ordered + [first], remaining - {first}, second);
    CommunityJoin(r.edges, ordered + [first], seeds + {first}, second, e);
    assert ordered + [first] + [second] == ordered + step;
    StepSet(remaining, first, second);
  }

  lemma StepSet(remaining: set<int>, a: int, b: int)
    ensures remaining - {a} - {b} == remaining - AsSet([a, b])
    ensures remaining - {a} == remaining - AsSet([a])
  {
  }

  lemma StepFrontier(r: Round, ordered: seq<int>, remaining: set<int>, seeds: set<int>, pair: Option<Edge>, frontier: Option<Edge>)
    requires r.Valid() && Listed(r, ordered, remaining) && Communities(r.edges, ordered, seeds)
    requires BestPair(r.edges, remaining, pair) && BestFrontier(r.edges, remaining, frontier)
    requires frontier.Some? && !(pair.Some? && pair.value.score > frontier.value.score)
    ensures var step := [EntryOf(frontier.value, remaining)];
      && NextStep(r, remaining, step, false)
      && Listed(r, ordered + step, remaining - AsSet(step)) && |remaining - AsSet(step)| < |remaining|
      && Communities(r.edges, ordered + step, seeds)
  {
    var e := frontier.value;
    var t := EntryOf(e, remaining);
    assert e in r.edges && Touches(e, t) && t in remaining && Other(e, t) in ordered;
    assert NextStep(r, remaining, [t], false);
    hide NextStep, Listed, Communities, BestPair, BestFrontier, Round.Valid;
    ListOne(r, ordered, remaining, t);
    CommunityJoin(r.edges, ordered, seeds, t, e);
    StepSet(remaining, t, t);
  }

  lemma StepSeed(r: Round, ordered: seq<int>, remaining: set<int>, seeds: set<int>, pair: Option<Edge>, frontier: Option<Edge>, t: int)
    requires Listed(r, ordered, remaining) && Communities(r.edges, ordered, seeds)
    requires BestPair(r.edges, remaining, pair) && BestFrontier(r.edges, remaining, frontier) && pair.None? && frontier.None?
    requires Heaviest(r, remaining, t)
    ensures NextStep(r, remaining, [t], true)
    ensures Listed(r, ordered + [t], remaining - AsSet([t])) && |remaining - AsSet([t])| < |remaining|
    ensures Communities(r.edges, ordered + [t], seeds + {t})
  {
    assert t in remaining;
    assert [t][0] == t;
    assert NextStep(r, remaining, [t], true);
    hide NextStep, Listed, Communities, BestPair, BestFrontier, Heaviest;
    ListOne(r, ordered, remaining, t);
    CommunitySeed(r.edges, ordered, seeds, t);
    StepSet(remaining, t, t);
  }

  // ----- greedy partition (lines 881-909) -----

  /** Relation cost of `tid` towards the threads in `at` if it were on `node`. */
  function Pull(r: Round, edges: seq<Edge>, tid: int, at: map<int, int>, node: int): real {
    if edges == [] then 0.0
    else
      var e, rest := edges[0], Pull(r, edges[1..], tid, at, node);
      if Touches(e, tid) && Other(e, tid) in at
      then e.score * r.latency(node, at[Other(e, tid)]) + rest
      else rest
  }

  function CountOverload(r: Round, count: map<int, int>, node: int): int {
    MaxInt(0, Get(count, node) + 1 - Get(r.cap, node))
  }

  /** The objective of line 898; the population overload of the node decides first. */
  function NodeKey(r: Round, seeds: set<int>, at: map<int, int>, load: map<int, real>, count: map<int, int>,
                   tid: int, node: int): seq<real>
  {
    var size := Get(r.size, node);
    [ CountOverload(r, count, node) as real,
      Max(0.0, GetReal(load, node) + r.Demand(tid) - size as real),
      if tid in seeds then 0.0 else Pull(r, r.edges, tid, at, node),
      Bit(node != Get(r.home, tid)),
      (GetReal(load, node) + r.Demand(tid)) / MaxInt(size, 1) as real,
      node as real ]
  }

  /** The running node loads and populations are those of the partition built so far. */
  predicate Tracks(r: Round, at: map<int, int>, load: map<int, real>, count: map<int, int>) {
    && (forall n :: n in r.nodes ==> Get(count, n) == Count(at, n))
    && (forall n :: n in r.nodes ==> GetReal(load, n) == Load(r.tids, r.demand, at, n))
  }

  lemma TracksStart(r: Round)
    ensures Tracks(r, map[], map[], map[])
  {
    forall n | n in r.nodes
      ensures Count(map[], n) == 0 && Load(r.tids, r.demand, map[], n) == 0.0
    {
      LoadEmpty(r.tids, r.demand, n);
    }
  }

  lemma TracksAdd(r: Round, at: map<int, int>, load: map<int, real>, count: map<int, int>, t: int, node: int)
    requires r.Valid() && Tracks(r, at, load, count)
    requires t in r.tids && t !in at
    ensures Tracks(r, at[t := node], load[node := GetReal(load, node) + r.Demand(t)], count[node := Get(count, node) + 1])
  {
    forall n | n in r.nodes
      ensures Count(at[t := node], n) == Count(at, n) + Gain(at, t, node, n)
      ensures Load(r.tids, r.demand, at[t := node], n) == Load(r.tids, r.demand, at, n) + LoadGain(r.demand, at, t, node, n)
    {
      CountSet(at, t, node, n);
      LoadSet(r.tids, r.demand, at, t, node, n);
    }
  }

  /** A node whose overload is least has room whenever some node has. */
  lemma ChosenHasRoom(r: Round, at: map<int, int>, count: map<int, int>, best: int)
    requires r.Valid() && Feasible(r)
    requires |at| < |r.tids| && forall t :: t in at ==> at[t] in r.nodes
    requires forall n :: n in r.nodes ==> Get(count, n) == Count(at, n)
    requires best in r.nodes
    requires forall n :: n in r.nodes ==> CountOverload(r, count, best) <= CountOverload(r, count, n)
    ensures Count(at, best) + 1 <= Get(r.cap, best)
  {
    SomePlaceBelow(r.nodes, at, n => Get(r.cap, n));
    var free :| free in r.nodes && Count(at, free) < Get(r.cap, free);
    assert CountOverload(r, count, free) == 0;
  }

  lemma LexFirst(a: seq<real>, b: seq<real>)
    requires a != [] && b != [] && !LexLess(a, b)
    ensures b[0] <= a[0]
  {
  }

  method ChooseNode(r: Round, seeds: set<int>, at: map<int, int>, load: map<int, real>, count: map<int, int>, tid: int)
    returns (best: int)
    requires r.Valid()
    ensures best in r.nodes
    ensures forall n :: n in r.nodes ==>
      !LexLess(NodeKey(r, seeds, at, load, count, tid, n), NodeKey(r, seeds, at, load, count, tid, best))
    ensures forall n :: n in r.nodes ==> CountOverload(r, count, best) <= CountOverload(r, count, n)
    ensures Tracks(r, at, load, count) ==>
      forall n :: n in r.nodes ==> !LexLess(PlaceKey(r, seeds, at, tid, n), PlaceKey(r, seeds, at, tid, best))
  {
    hide Tracks, PlaceKey;
    best := ArgMin(r.nodes, n => NodeKey(r, seeds, at, load, count, tid, n));
    if Tracks(r, at, load, count) {
      forall n | n in r.nodes
        ensures !LexLess(PlaceKey(r, seeds, at, tid, n), PlaceKey(r, seeds, at, tid, best))
      {
        KeysAgree(r, seeds, at, load, count, tid, n);
        KeysAgree(r, seeds, at, load, count, tid, best);
        hide NodeKey;
      }
    }
    forall n | n in r.nodes
      ensures CountOverload(r, count, best) <= CountOverload(r, count, n)
    {
      LexFirst(NodeKey(r, seeds, at, load, count, tid, n), NodeKey(r, seeds, at, load, count, tid, best));
    }
  }

  /** The objective with the loads and populations of the partition itself. */
  function PlaceKey(r: Round, seeds: set<int>, at: map<int, int>, tid: int, node: int): seq<real> {
    var size := Get(r.size, node);
    [ MaxInt(0, Count(at, node) + 1 - Get(r.cap, node)) as real,
      Max(0.0, Load(r.tids, r.demand, at, node) + r.Demand(tid) - size as real),
      if tid in seeds then 0.0 else Pull(r, r.edges, tid, at, node),
      Bit(node != Get(r.home, tid)),
      (Load(r.tids, r.demand, at, node) + r.Demand(tid)) / MaxInt(size, 1) as real,
      node as real ]
  }

  lemma KeysAgree(r: Round, seeds: set<int>, at: map<int, int>, load: map<int, real>, count: map<int, int>, tid: int, node: int)
    requires Tracks(r, at, load, count) && node in r.nodes
    ensures NodeKey(r, seeds, at, load, count, tid, node) == PlaceKey(r, seeds, at, tid, node)
  {
    hide Load, Count, Pull;
  }

  /** Where the threads listed before a thread are. */
  function Earlier(at: map<int, int>, ordered: seq<int>, i: nat): map<int, int>
    requires i <= |ordered|
  {
    map t | t in at && t in ordered[..i] :: at[t]
  }

  /** Each thread is on the node with the least objective, given the threads listed before it. */
  ghost predicate PlacedBest(r: Round, ordered: seq<int>, seeds: set<int>, at: map<int, int>, n: nat)
    requires n <= |ordered|
  {
    forall i, node :: 0 <= i < n && node in r.nodes ==>
      !LexLess(PlaceKey(r, seeds, Earlier(at, ordered, i), ordered[i], node),
               PlaceKey(r, seeds, Earlier(at, ordered, i), ordered[i], Get(at, ordered[i])))
  }

  lemma EarlierSame(at: map<int, int>, ordered: seq<int>, j: nat, i: nat, best: int)
    requires j <= i < |ordered| && Distinct(ordered)
    ensures Earlier(at[ordered[i] := best], ordered, j) == Earlier(at, ordered, j)
  {
    assert ordered[i] !in ordered[..j];
  }

  lemma EarlierAll(at: map<int, int>, ordered: seq<int>, i: nat)
    requires i <= |ordered| && forall t :: t in at <==> t in ordered[..i]
    ensures Earlier(at, ordered, i) == at
  {
    forall t
      ensures t in Earlier(at, ordered, i) <==> t in at
    {
    }
  }

  lemma GreedyMore(r: Round, ordered: seq<int>, seeds: set<int>, at: map<int, int>, i: nat, best: int)
    requires i < |ordered| && Distinct(ordered) && PlacedBest(r, ordered, seeds, at, i) && (forall t :: t in at <==> t in ordered[..i])
    requires forall n :: n in r.nodes ==> !LexLess(PlaceKey(r, seeds, at, ordered[i], n), PlaceKey(r, seeds, at, ordered[i], best))
    ensures PlacedBest(r, ordered, seeds, at[ordered[i] := best], i + 1)
  {
    hide PlaceKey, LexLess, Earlier;
    var next := at[ordered[i] := best];
    EarlierAll(at, ordered, i);
    forall j, node | 0 <= j < i + 1 && node in r.nodes
      ensures !LexLess(PlaceKey(r, seeds, Earlier(next, ordered, j), ordered[j], node),
                       PlaceKey(r, seeds, Earlier(next, ordered, j), ordered[j], Get(next, ordered[j])))
    {
      EarlierSame(at, ordered, j, i, best);
      if j < i {
        assert ordered[j] != ordered[i];
      }
    }
  }

  /** The state of the greedy loop after `i` threads. */
  ghost predicate Partial(r: Round, ordered: seq<int>, i: nat, at: map<int, int>, load: map<int, real>, count: map<int, int>)
    requires i <= |ordered|
  {
    && (forall t :: t in at <==> t in ordered[..i])
    && (forall t :: t in at ==> at[t] in r.nodes)
    && Tracks(r, at, load, count)
    && (Feasible(r) ==> WithinCaps(r, at))
  }

  lemma GreedyStep(r: Round, ordered: seq<int>, i: nat, at: map<int, int>, load: map<int, real>, count: map<int, int>, best: int)
    requires r.Valid()
    requires Distinct(ordered) && forall t :: t in ordered <==> t in r.tids
    requires i < |ordered| && Partial(r, ordered, i, at, load, count)
    requires best in r.nodes
    requires forall n :: n in r.nodes ==> CountOverload(r, count, best) <= CountOverload(r, count, n)
    ensures var tid := ordered[i];
      Partial(r, ordered, i + 1, at[tid := best], load[best := GetReal(load, best) + r.Demand(tid)], count[best := Get(count, best) + 1])
  {
    var tid := ordered[i];
    NotYet(ordered, i, at);
    assert tid in r.tids;
    TracksAdd(r, at, load, count, tid, best);
    if Feasible(r) {
      MissingOne(at, r.tids, tid);
      ChosenHasRoom(r, at, count, best);
      CapsKept(r, at, tid, best);
    }
    hide Feasible, WithinCaps, Tracks, CountOverload;
    assert ordered[..i + 1] == ordered[..i] + [tid];
  }

  lemma NotYet(ordered: seq<int>, i: nat, at: map<int, int>)
    requires Distinct(ordered) && i < |ordered|
    requires forall t :: t in at <==> t in ordered[..i]
    ensures ordered[i] !in at
    ensures forall t :: t in at ==> t in ordered
  {
    forall t | t in at
      ensures t in ordered && t != ordered[i]
    {
      assert t in ordered[..i];
    }
  }

  lemma MissingOne(at: map<int, int>, tids: seq<int>, tid: int)
    requires Distinct(tids) && tid in tids && tid !in at
    requires forall t :: t in at ==> t in tids
    ensures |at| < |tids|
  {
    var all := set t | t in tids;
    DistinctLength(tids, all);
    forall t | t in at
      ensures t in all - {tid}
    {
      assert t in tids;
    }
    SubsetCard(at.Keys, all - {tid});
    CardWithout(all, tid);
    assert |at| == |at.Keys|;
  }

  lemma PartialStart(r: Round, ordered: seq<int>)
    ensures Partial(r, ordered, 0, map[], map[], map[])
  {
    TracksStart(r);
    hide Tracks;
    if Feasible(r) {
      forall n | n in r.nodes
        ensures Count(map[], n) <= Get(r.cap, n)
      {
      }
    }
  }

  lemma PartialParts(r: Round, ordered: seq<int>, i: nat, at: map<int, int>, load: map<int, real>, count: map<int, int>)
    requires i <= |ordered| && Partial(r, ordered, i, at, load, count)
    ensures Tracks(r, at, load, count) && forall t :: t in at <==> t in ordered[..i]
  {
    hide Tracks, Feasible, WithinCaps;
  }

  method PlaceGreedily(r: Round, ordered: seq<int>, seeds: set<int>)
    returns (at: map<int, int>, load: map<int, real>, count: map<int, int>)
    requires r.Valid()
    requires Distinct(ordered) && forall t :: t in ordered <==> t in r.tids
    ensures Partition(r, at) && Tracks(r, at, load, count)
    ensures Feasible(r) ==> WithinCaps(r, at)
    ensures PlacedBest(r, ordered, seeds, at, |ordered|)
  {
    at, load, count := map[], map[], map[];
    hide Feasible, Tracks, WithinCaps;
    PartialStart(r, ordered);
    for i := 0 to |ordered|
      invariant Partial(r, ordered, i, at, load, count) && PlacedBest(r, ordered, seeds, at, i)
    {
      hide Partial, NodeKey, PlacedBest, PlaceKey, LexLess, CountOverload;
      var tid := ordered[i];
      PartialParts(r, ordered, i, at, load, count);
      var best := ChooseNode(r, seeds, at, load, count, tid);
      GreedyStep(r, ordered, i, at, load, count, best);
      GreedyMore(r, ordered, seeds, at, i, best);
      at := at[tid := best];
      load := load[best := GetReal(load, best) + r.Demand(tid)];
      count := count[best := Get(count, best) + 1];
    }
    assert ordered[..|ordered|] == ordered;
  }

  lemma CapsKept(r: Round, at: map<int, int>, tid: int, best: int)
    requires WithinCaps(r, at) && Count(at, best) + 1 <= Get(r.cap, best)
    ensures WithinCaps(r, at[tid := best])
  {
    forall n | n in r.nodes
      ensures Count(at[tid := best], n) <= Get(r.cap, n)
    {
      CountSet(at, tid, best, n);
    }
  }

  // ----- floor repair (lines 911-952) -----

  /** A thread that could leave its node without breaking a floor. */
  predicate Spare(r: Round, at: map<int, int>, target: int, t: int) {
    t in at && at[t] != target && Get(r.floor, at[t]) < Count(at, at[t])
  }

  /** Moving `t` would overload the target node by demand. */
  predicate Heavy(r: Round, at: map<int, int>, target: int, t: int) {
    Load(r.tids, r.demand, at, target) + r.Demand(t) > Get(r.size, target) as real + EPS
  }

  /** The guard of lines 921-925 on the running tables. */
  predicate Donor(r: Round, at: map<int, int>, load: map<int, real>, count: map<int, int>, target: int, t: int) {
    && t in at
    && at[t] != target
    && Get(r.floor, at[t]) < Get(count, at[t])
    && Get(count, target) + 1 <= Get(r.cap, target)
    && GetReal(load, target) + r.Demand(t) <= Get(r.size, target) as real + EPS
  }

  function MoveDelta(r: Round, at: map<int, int>, target: int, t: int): real
    requires t in at
  {
    Pull(r, r.edges, t, at, target) - Pull(r, r.edges, t, at, at[t])
  }

  /** No two donors differ in cost by something that the tolerance would take for nothing. */
  ghost predicate Distinguishable(r: Round, at: map<int, int>, load: map<int, real>, count: map<int, int>, target: int) {
    forall t, u :: Donor(r, at, load, count, target, t) && Donor(r, at, load, count, target, u) ==>
      var a, b := MoveDelta(r, at, target, t), MoveDelta(r, at, target, u);
      Abs(a - b) <= EPS ==> a == b
  }

  function DonorKey(r: Round, at: map<int, int>, target: int, t: int): seq<real>
    requires t in at
  {
    [MoveDelta(r, at, target, t)] + r.IdKey(t)
  }

  /** The comparison of lines 936-938. */
  predicate Cheaper(r: Round, at: map<int, int>, target: int, t: int, best: int)
    requires t in at && best in at
  {
    var delta, bestDelta := MoveDelta(r, at, target, t), MoveDelta(r, at, target, best);
    delta < bestDelta - EPS || (Abs(delta - bestDelta) <= EPS && LexLess(r.IdKey(t), r.IdKey(best)))
  }

  lemma CheaperIsLex(r: Round, at: map<int, int>, load: map<int, real>, count: map<int, int>, target: int, t: int, best: int)
    requires Donor(r, at, load, count, target, t) && Donor(r, at, load, count, target, best) && Distinguishable(r, at, load, count, target)
    ensures Cheaper(r, at, target, t, best) <==> LexLess(DonorKey(r, at, target, t), DonorKey(r, at, target, best))
  {
    hide MoveDelta;
    var a, b := [MoveDelta(r, at, target, t)] + r.IdKey(t), [MoveDelta(r, at, target, best)] + r.IdKey(best);
    assert a[1..] == r.IdKey(t) && b[1..] == r.IdKey(best);
    assert Abs(MoveDelta(r, at, target, t) - MoveDelta(r, at, target, best)) <= EPS ==>
      MoveDelta(r, at, target, t) == MoveDelta(r, at, target, best);
  }

  /** The donor that no other undercuts. */
  ghost predicate CheapestDonor(r: Round, at: map<int, int>, load: map<int, real>, count: map<int, int>, target: int, best: int) {
    && best in r.tids && best in at && Donor(r, at, load, count, target, best)
    && (forall t :: t in r.tids && Donor(r, at, load, count, target, t) ==>
          MoveDelta(r, at, target, best) <= MoveDelta(r, at, target, t) + |r.tids| as real * EPS)
    && (Distinguishable(r, at, load, count, target) ==>
          forall t :: t in r.tids && Donor(r, at, load, count, target, t) ==>
            !LexLess(DonorKey(r, at, target, t), DonorKey(r, at, target, best)))
  }

  /** The cheapest thread that may join the node: up to the accumulated tolerance in any case, and
  with the identity as tie-break where the tolerance blurs nothing. */
  method FindDonor(r: Round, at: map<int, int>, load: map<int, real>, count: map<int, int>, target: int)
    returns (best: Option<int>)
    ensures best.None? ==> forall t :: t in r.tids ==> !Donor(r, at, load, count, target, t)
    ensures best.Some? ==> CheapestDonor(r, at, load, count, target, best.value)
  {
    hide MoveDelta, Distinguishable, DonorKey, LexLess;
    best := None;
    for i := 0 to |r.tids|
      invariant best.Some? ==> best.value in r.tids && Donor(r, at, load, count, target, best.value)
      invariant best.None? ==> forall j :: 0 <= j < i ==> !Donor(r, at, load, count, target, r.tids[j])
      invariant best.Some? ==> forall j :: 0 <= j < i && Donor(r, at, load, count, target, r.tids[j]) ==>
        MoveDelta(r, at, target, best.value) <= MoveDelta(r, at, target, r.tids[j]) + i as real * EPS
      invariant best.Some? && Distinguishable(r, at, load, count, target) ==>
        forall j :: 0 <= j < i && Donor(r, at, load, count, target, r.tids[j]) ==>
          !LexLess(DonorKey(r, at, target, r.tids[j]), DonorKey(r, at, target, best.value))
    {
      var t := r.tids[i];
      assert (i + 1) as real * EPS == i as real * EPS + EPS;
      if Donor(r, at, load, count, target, t) {
        if Distinguishable(r, at, load, count, target) {
          DonorOrder(r, at, load, count, target, i, best);
        }
        if best.None? || Cheaper(r, at, target, t, best.value) {
          best := Some(t);
        }
      }
    }
  }

  /** Keeping the cheaper of the best so far and the next donor. */
  lemma DonorOrder(r: Round, at: map<int, int>, load: map<int, real>, count: map<int, int>, target: int, i: nat, best: Option<int>)
    requires i < |r.tids| && Donor(r, at, load, count, target, r.tids[i]) && Distinguishable(r, at, load, count, target)
    requires best.Some? ==> Donor(r, at, load, count, target, best.value)
    requires best.Some? ==> forall j :: 0 <= j < i && Donor(r, at, load, count, target, r.tids[j]) ==>
      !LexLess(DonorKey(r, at, target, r.tids[j]), DonorKey(r, at, target, best.value))
    requires best.None? ==> forall j :: 0 <= j < i ==> !Donor(r, at, load, count, target, r.tids[j])
    ensures var next := if best.None? || Cheaper(r, at, target, r.tids[i], best.value) then r.tids[i] else best.value;
      forall j :: 0 <= j <= i && Donor(r, at, load, count, target, r.tids[j]) ==>
        !LexLess(DonorKey(r, at, target, r.tids[j]), DonorKey(r, at, target, next))
  {
    var t := r.tids[i];
    assert Donor(r, at, load, count, target, t);
    if best.Some? {
      CheaperIsLex(r, at, load, count, target, t, best.value);
    }
    hide MoveDelta, Distinguishable, DonorKey, LexLess, Cheaper;
    LexIrreflexive(DonorKey(r, at, target, t));
    if best.Some? && Cheaper(r, at, target, t, best.value) {
      forall j | 0 <= j < i && Donor(r, at, load, count, target, r.tids[j])
        ensures !LexLess(DonorKey(r, at, target, r.tids[j]), DonorKey(r, at, target, t))
      {
        LexAsymmetric(DonorKey(r, at, target, t), DonorKey(r, at, target, best.value));
        LexNegative(DonorKey(r, at, target, r.tids[j]), DonorKey(r, at, target, best.value), DonorKey(r, at, target, t));
      }
    }
  }

  lemma TracksMove(r: Round, at: map<int, int>, load: map<int, real>, count: map<int, int>, t: int, target: int)
    requires r.Valid() && Tracks(r, at, load, count)
    requires t in r.tids && t in at && at[t] != target
    ensures var source := at[t];
      Tracks(r, at[t := target],
             load[source := GetReal(load, source) - r.Demand(t)][target := GetReal(load, target) + r.Demand(t)],
             count[source := Get(count, source) - 1][target := Get(count, target) + 1])
  {
    forall n | n in r.nodes
      ensures Count(at[t := target], n) == Count(at, n) + Gain(at, t, target, n)
      ensures Load(r.tids, r.demand, at[t := target], n) == Load(r.tids, r.demand, at, n) + LoadGain(r.demand, at, t, target, n)
    {
      CountSet(at, t, target, n);
      LoadSet(r.tids, r.demand, at, t, target, n);
    }
  }

  /** What the repair keeps: a tracked partition within the caps. */
  ghost predicate Sound(r: Round, at: map<int, int>, load: map<int, real>, count: map<int, int>) {
    && Partition(r, at)
    && Tracks(r, at, load, count)
    && (Feasible(r) ==> WithinCaps(r, at))
  }

  predicate FloorsMet(r: Round, at: map<int, int>, k: nat)
    requires k <= |r.nodes|
  {
    forall j :: 0 <= j < k ==> Get(r.floor, r.nodes[j]) <= Count(at, r.nodes[j])
  }

  lemma DonationKeeps(r: Round, at: map<int, int>, load: map<int, real>, count: map<int, int>, k: nat, t: int)
    requires r.Valid() && k < |r.nodes|
    requires Sound(r, at, load, count) && FloorsMet(r, at, k)
    requires t in r.tids && Donor(r, at, load, count, r.nodes[k], t)
    ensures var target, source := r.nodes[k], at[t];
      Sound(r, at[t := target],
            load[source := GetReal(load, source) - r.Demand(t)][target := GetReal(load, target) + r.Demand(t)],
            count[source := Get(count, source) - 1][target := Get(count, target) + 1])
    ensures FloorsMet(r, at[t := r.nodes[k]], k)
  {
    var target, source := r.nodes[k], at[t];
    TracksMove(r, at, load, count, t, target);
    forall n | n in r.nodes
      ensures Count(at[t := target], n) == Count(at, n) + Gain(at, t, target, n)
    {
      CountSet(at, t, target, n);
    }
    assert source in r.nodes && Get(count, source) == Count(at, source);
    forall j | 0 <= j < k
      ensures Get(r.floor, r.nodes[j]) <= Count(at[t := target], r.nodes[j])
    {
      CountSet(at, t, target, r.nodes[j]);
    }
  }

  /** In a feasible round a node below its floor always finds spare threads, so only
  demand can stop the repair. */
  lemma OnlyDemandBlocks(r: Round, at: map<int, int>, load: map<int, real>, count: map<int, int>, target: int)
    requires r.Valid() && Feasible(r) && Sound(r, at, load, count)
    requires target in r.nodes && Count(at, target) < Get(r.floor, target)
    requires forall t :: t in r.tids ==> !Donor(r, at, load, count, target, t)
    ensures exists t :: Spare(r, at, target, t)
    ensures forall t :: Spare(r, at, target, t) ==> Heavy(r, at, target, t)
  {
    PartitionSize(r, at);
    SomePlaceAbove(r.nodes, at, n => Get(r.floor, n), target);
    var p :| p in r.nodes && Get(r.floor, p) < Count(at, p);
    Inhabited(Members(at, p));
    var t :| t in Members(at, p);
    assert Spare(r, at, target, t);
    forall u | Spare(r, at, target, u)
      ensures Heavy(r, at, target, u)
    {
      assert u in r.tids && !Donor(r, at, load, count, target, u);
      assert at[u] in r.nodes;
    }
  }

  lemma PartitionSize(r: Round, at: map<int, int>)
    requires r.Valid() && Partition(r, at)
    ensures |at| == |r.tids|
  {
    DistinctLength(r.tids, at.Keys);
    assert |at| == |at.Keys|;
  }

  /** The thread that the repair takes for the first node below its floor: no donor is cheaper by
  more than the accumulated tolerance, nor at all where the tolerance blurs nothing. */
  ghost predicate Gives(r: Round, at: map<int, int>, load: map<int, real>, count: map<int, int>, k: nat, t: int) {
    && k < |r.nodes| && FloorsMet(r, at, k) && Count(at, r.nodes[k]) < Get(r.floor, r.nodes[k])
    && Tracks(r, at, load, count) && CheapestDonor(r, at, load, count, r.nodes[k], t)
  }

  /** One move of the repair. */
  ghost predicate Donation(r: Round, at: map<int, int>, t: int, next: map<int, int>) {
    exists load, count, k: nat :: Gives(r, at, load, count, k, t) && next == at[t := r.nodes[k]]
  }

  /** The partitions of a repair, and the threads moved between them. */
  ghost predicate Repairs(r: Round, stages: seq<map<int, int>>, moved: seq<int>) {
    && |stages| == |moved| + 1
    && forall i :: 0 <= i < |moved| ==> Donation(r, stages[i], moved[i], stages[i + 1])
  }

  /** The greedy partition: communities in order, each thread on its best node. */
  ghost predicate GreedyStart(r: Round, at: map<int, int>) {
    exists c :: Ordered(r, c) && ListsAll(r, c) && PlacedBest(r, Listing(c.steps), Starters(c), at, |Listing(c.steps)|)
  }

  ghost predicate ListsAll(r: Round, c: Ordering) {
    Distinct(Listing(c.steps)) && forall t :: t in Listing(c.steps) <==> t in r.tids
  }

  /** The partitions that the repair of the greedy one goes through. */
  ghost predicate Reached(r: Round, at: map<int, int>) {
    exists stages, moved :: ReachedBy(r, stages, moved, at)
  }

  ghost predicate ReachedBy(r: Round, stages: seq<map<int, int>>, moved: seq<int>, at: map<int, int>) {
    Repairs(r, stages, moved) && GreedyStart(r, stages[0]) && stages[|moved|] == at
  }

  lemma ReachedFirst(r: Round, at: map<int, int>)
    requires GreedyStart(r, at)
    ensures Reached(r, at)
  {
    hide GreedyStart, Donation;
    assert ReachedBy(r, [at], [], at);
  }

  lemma GivesMeans(r: Round, at: map<int, int>, load: map<int, real>, count: map<int, int>, k: nat, t: int)
    requires Gives(r, at, load, count, k, t)
    ensures k < |r.nodes| && Donation(r, at, t, at[t := r.nodes[k]])
  {
    hide FloorsMet, Tracks, CheapestDonor;
  }

  lemma ReachedMore(r: Round, stages: seq<map<int, int>>, moved: seq<int>, at: map<int, int>, t: int, next: map<int, int>)
    requires ReachedBy(r, stages, moved, at) && Donation(r, at, t, next)
    ensures ReachedBy(r, stages + [next], moved + [t], next)
  {
    hide GreedyStart, Donation;
    var more, all := stages + [next], moved + [t];
    forall i | 0 <= i < |all|
      ensures Donation(r, more[i], all[i], more[i + 1])
    {
      assert i < |moved| ==> Donation(r, stages[i], moved[i], stages[i + 1]);
    }
  }

  lemma ReachedIs(r: Round, stages: seq<map<int, int>>, moved: seq<int>, at: map<int, int>)
    requires ReachedBy(r, stages, moved, at)
    ensures Reached(r, at)
  {
    hide ReachedBy;
  }

  lemma Course(r: Round, at: map<int, int>) returns (stages: seq<map<int, int>>, moved: seq<int>)
    requires Reached(r, at)
    ensures ReachedBy(r, stages, moved, at)
  {
    hide ReachedBy;
    stages, moved :| ReachedBy(r, stages, moved, at);
  }

  lemma ReachedNext(r: Round, at: map<int, int>, load: map<int, real>, count: map<int, int>, k: nat, t: int)
    requires Reached(r, at) && Gives(r, at, load, count, k, t)
    ensures k < |r.nodes| && Reached(r, at[t := r.nodes[k]])
  {
    hide *;
    GivesMeans(r, at, load, count, k, t);
    var next := at[t := r.nodes[k]];
    var stages, moved := Course(r, at);
    ReachedMore(r, stages, moved, at, t, next);
    ReachedIs(r, stages + [next], moved + [t], next);
  }

  /** A greedy partition that meets every floor is left as it is. */
  lemma NothingToRepair(r: Round, stages: seq<map<int, int>>, moved: seq<int>, at: map<int, int>)
    requires ReachedBy(r, stages, moved, at) && WithinFloors(r, stages[0])
    ensures moved == [] && at == stages[0]
  {
    hide GreedyStart, Donation;
    assert moved != [] ==> Donation(r, stages[0], moved[0], stages[1]);
    if moved != [] {
      NoDonation(r, stages[0], moved[0], stages[1]);
    }
  }

  lemma NoDonation(r: Round, at: map<int, int>, t: int, next: map<int, int>)
    requires WithinFloors(r, at)
    ensures !Donation(r, at, t, next)
  {
    forall load, count, k: nat
      ensures !Gives(r, at, load, count, k, t)
    {
      hide FloorsMet, Tracks, CheapestDonor;
      if k < |r.nodes| {
        var n := r.nodes[k];
        assert n in r.nodes;
      }
    }
  }

  /** The repair of the greedy partition cannot go on: a node stays below its floor, and where the round is
  feasible there are spare threads but each is too heavy for that node. */
  ghost predicate Stuck(r: Round, at: map<int, int>, target: int) {
    && Partition(r, at) && Reached(r, at) && target in r.nodes
    && Count(at, target) < Get(r.floor, target)
    && (Feasible(r) ==>
          && (exists t :: Spare(r, at, target, t))
          && (forall t :: Spare(r, at, target, t) ==> Heavy(r, at, target, t)))
  }

  lemma StuckHere(r: Round, at: map<int, int>, load: map<int, real>, count: map<int, int>, target: int)
    requires r.Valid() && Sound(r, at, load, count) && Reached(r, at)
    requires target in r.nodes && Get(count, target) < Get(r.floor, target)
    requires forall t :: t in r.tids ==> !Donor(r, at, load, count, target, t)
    ensures Stuck(r, at, target)
  {
    hide Reached;
    if Feasible(r) {
      OnlyDemandBlocks(r, at, load, count, target);
    }
  }

  /** Fills one node up to its floor, or stops when no thread may join it. */
  method RaiseNode(r: Round, k: nat, at0: map<int, int>, load0: map<int, real>, count0: map<int, int>)
    returns (ok: bool, at: map<int, int>, load: map<int, real>, count: map<int, int>)
    requires r.Valid() && k < |r.nodes|
    requires Sound(r, at0, load0, count0) && FloorsMet(r, at0, k) && Reached(r, at0)
    ensures Sound(r, at, load, count) && Reached(r, at)
    ensures ok ==> FloorsMet(r, at, k + 1)
    ensures !ok ==> Stuck(r, at, r.nodes[k])
  {
    hide Feasible, Stuck, WithinCaps, Partition, Donor, Reached;
    at, load, count := at0, load0, count0;
    var target := r.nodes[k];
    while Get(count, target) < Get(r.floor, target)
      invariant Sound(r, at, load, count) && FloorsMet(r, at, k) && Reached(r, at)
      decreases Get(r.floor, target) - Get(count, target)
    {
      var donor := FindDonor(r, at, load, count, target);
      if donor.None? {
        StuckHere(r, at, load, count, target);
        return false, at, load, count;
      }
      var t := donor.value;
      var source := at[t];
      assert Gives(r, at, load, count, k, t) by {
        hide CheapestDonor;
      }
      ReachedNext(r, at, load, count, k, t);
      DonationKeeps(r, at, load, count, k, t);
      at := at[t := target];
      load := load[source := GetReal(load, source) - r.Demand(t)][target := GetReal(load, target) + r.Demand(t)];
      count := count[source := Get(count, source) - 1][target := Get(count, target) + 1];
    }
    ok := true;
  }

  /** Raises every node to its floor, or stops at the first node that no thread may join. */
  method RepairFloors(r: Round, at0: map<int, int>, load0: map<int, real>, count0: map<int, int>)
    returns (ok: bool, at: map<int, int>, load: map<int, real>, count: map<int, int>)
    requires r.Valid() && Sound(r, at0, load0, count0) && Reached(r, at0)
    ensures Sound(r, at, load, count) && Reached(r, at)
    ensures ok ==> WithinFloors(r, at)
    ensures !ok ==> exists n :: Stuck(r, at, n)
  {
    hide Reached;
    at, load, count := at0, load0, count0;
    for k := 0 to |r.nodes|
      invariant Sound(r, at, load, count) && FloorsMet(r, at, k) && Reached(r, at)
    {
      ok, at, load, count := RaiseNode(r, k, at, load, count);
      if !ok {
        return false, at, load, count;
      }
    }
    ok := true;
  }

  // ----- capacity-neutral swaps (lines 954-995) -----

  function EdgeCost(r: Round, at: map<int, int>, e: Edge): real {
    e.score * r.latency(Get(at, e.from), Get(at, e.to))
  }

  /** Relation cost of a whole partition (line 1020). */
  function Cost(r: Round, edges: seq<Edge>, at: map<int, int>): real {
    if edges == [] then 0.0 else EdgeCost(r, at, edges[0]) + Cost(r, edges[1..], at)
  }

  /** Cost of the edges that touch one of the two threads. */
  function PairCost(r: Round, edges: seq<Edge>, at: map<int, int>, a: int, b: int): real {
    if edges == [] then 0.0
    else
      (if Touches(edges[0], a) || Touches(edges[0], b) then EdgeCost(r, at, edges[0]) else 0.0)
      + PairCost(r, edges[1..], at, a, b)
  }

  function Swapped(at: map<int, int>, a: int, b: int): map<int, int>
    requires a in at && b in at
  {
    at[a := at[b]][b := at[a]]
  }

  /** The cost difference that the solver reads off the touched edges is that of the whole partition. */
  lemma {:induction false} SwapCost(r: Round, edges: seq<Edge>, at: map<int, int>, a: int, b: int)
    requires a in at && b in at
    ensures Cost(r, edges, Swapped(at, a, b)) - Cost(r, edges, at)
         == PairCost(r, edges, Swapped(at, a, b), a, b) - PairCost(r, edges, at, a, b)
  {
    if edges != [] {
      SwapCost(r, edges[1..], at, a, b);
    }
  }

  function LoadAfter(r: Round, at: map<int, int>, load: map<int, real>, leaves: int, joins: int): real
    requires leaves in at
  {
    GetReal(load, at[leaves]) - r.Demand(leaves) + r.Demand(joins)
  }

  /** The guards of lines 964-986. */
  predicate Improves(r: Round, at: map<int, int>, load: map<int, real>, a: int, b: int)
    requires a in at && b in at
  {
    && at[a] != at[b]
    && PairCost(r, r.edges, Swapped(at, a, b), a, b) + EPS < PairCost(r, r.edges, at, a, b)
    && LoadAfter(r, at, load, a, b) <= Get(r.size, at[a]) as real + EPS
    && LoadAfter(r, at, load, b, a) <= Get(r.size, at[b]) as real + EPS
  }

  lemma {:induction false} PairCostSymmetric(r: Round, edges: seq<Edge>, at: map<int, int>, a: int, b: int)
    ensures PairCost(r, edges, at, a, b) == PairCost(r, edges, at, b, a)
  {
    if edges != [] {
      PairCostSymmetric(r, edges[1..], at, a, b);
    }
  }

  lemma ImprovesSymmetric(r: Round, at: map<int, int>, load: map<int, real>, a: int, b: int)
    requires a in at && b in at && a != b
    ensures Improves(r, at, load, a, b) <==> Improves(r, at, load, b, a)
  {
    assert Swapped(at, a, b) == Swapped(at, b, a);
    PairCostSymmetric(r, r.edges, at, a, b);
    PairCostSymmetric(r, r.edges, Swapped(at, a, b), a, b);
    hide PairCost, Swapped;
  }

  predicate SameCounts(r: Round, a: map<int, int>, b: map<int, int>) {
    forall n :: n in r.nodes ==> Count(a, n) == Count(b, n)
  }

  predicate LoadsKnown(r: Round, at: map<int, int>, load: map<int, real>) {
    forall n :: n in r.nodes ==> GetReal(load, n) == Load(r.tids, r.demand, at, n)
  }

  /** No node load grows past both its old value and the node's CPUs. */
  predicate LoadsBounded(r: Round, before: map<int, int>, after: map<int, int>) {
    forall n :: n in r.nodes ==>
      Load(r.tids, r.demand, after, n) <= Max(Load(r.tids, r.demand, before, n), Get(r.size, n) as real + EPS)
  }

  lemma SwapEffect(r: Round, at: map<int, int>, a: int, b: int, n: int)
    requires r.Valid() && a in r.tids && b in r.tids && a in at && b in at && at[a] != at[b]
    ensures Count(Swapped(at, a, b), n) == Count(at, n)
    ensures Load(r.tids, r.demand, Swapped(at, a, b), n)
         == Load(r.tids, r.demand, at, n)
          + (if n == at[a] then r.Demand(b) - r.Demand(a) else if n == at[b] then r.Demand(a) - r.Demand(b) else 0.0)
  {
    var mid := at[a := at[b]];
    CountSet(at, a, at[b], n);
    CountSet(mid, b, at[a], n);
    LoadSet(r.tids, r.demand, at, a, at[b], n);
    LoadSet(r.tids, r.demand, mid, b, at[a], n);
  }

  /** What the swap phase keeps relative to the partition it started from. */
  ghost predicate Refines(r: Round, start: map<int, int>, at: map<int, int>, load: map<int, real>, swaps: nat) {
    && Partition(r, at)
    && SameCounts(r, at, start)
    && LoadsKnown(r, at, load)
    && LoadsBounded(r, start, at)
    && Cost(r, r.edges, at) + swaps as real * EPS <= Cost(r, r.edges, start)
    && (swaps > 0 ==> Cost(r, r.edges, at) < Cost(r, r.edges, start))
    && (swaps == 0 ==> at == start)
  }

  lemma SwapLoads(r: Round, start: map<int, int>, at: map<int, int>, load: map<int, real>, a: int, b: int)
    requires r.Valid() && LoadsKnown(r, at, load) && LoadsBounded(r, start, at)
    requires a in r.tids && b in r.tids && a in at && b in at && at[a] in r.nodes && at[b] in r.nodes
    requires Improves(r, at, load, a, b)
    ensures LoadsKnown(r, Swapped(at, a, b), load[at[a] := LoadAfter(r, at, load, a, b)][at[b] := LoadAfter(r, at, load, b, a)])
    ensures LoadsBounded(r, start, Swapped(at, a, b))
  {
    hide PairCost, Swapped;
    forall n | n in r.nodes
      ensures Load(r.tids, r.demand, Swapped(at, a, b), n)
           == Load(r.tids, r.demand, at, n)
            + (if n == at[a] then r.Demand(b) - r.Demand(a) else if n == at[b] then r.Demand(a) - r.Demand(b) else 0.0)
    {
      SwapEffect(r, at, a, b, n);
    }
  }

  lemma SwapCounts(r: Round, start: map<int, int>, at: map<int, int>, a: int, b: int)
    requires r.Valid() && SameCounts(r, at, start)
    requires a in r.tids && b in r.tids && a in at && b in at && at[a] != at[b]
    ensures SameCounts(r, Swapped(at, a, b), start)
  {
    hide Swapped;
    forall n | n in r.nodes
      ensures Count(Swapped(at, a, b), n) == Count(at, n)
    {
      SwapEffect(r, at, a, b, n);
    }
  }

  /** An accepted swap lowers the relation cost of the whole partition by more than the tolerance. */
  lemma SwapLowersCost(r: Round, at: map<int, int>, load: map<int, real>, a: int, b: int)
    requires a in at && b in at && Improves(r, at, load, a, b)
    ensures Cost(r, r.edges, Swapped(at, a, b)) + EPS < Cost(r, r.edges, at)
  {
    hide LoadAfter;
    SwapCost(r, r.edges, at, a, b);
  }

  lemma SwapRefines(r: Round, start: map<int, int>, at: map<int, int>, load: map<int, real>, swaps: nat, a: int, b: int)
    requires r.Valid() && Refines(r, start, at, load, swaps)
    requires a in r.tids && b in r.tids && Improves(r, at, load, a, b)
    ensures Refines(r, start, Swapped(at, a, b),
                    load[at[a] := LoadAfter(r, at, load, a, b)][at[b] := LoadAfter(r, at, load, b, a)], swaps + 1)
  {
    SwapLowersCost(r, at, load, a, b);
    SwapCounts(r, start, at, a, b);
    SwapLoads(r, start, at, load, a, b);
    assert (swaps + 1) as real * EPS == swaps as real * EPS + EPS;
    hide LoadsKnown, LoadsBounded, SameCounts, Cost, LoadAfter;
  }

  /** No pair with first index below `i`, or first index `i` and second below `j`, improves. */
  ghost predicate Settled(r: Round, ordered: seq<int>, at: map<int, int>, load: map<int, real>, i: nat, j: nat)
    requires forall t :: t in ordered ==> t in at
  {
    forall x, y :: 0 <= x < y < |ordered| && (x < i || (x == i && y < j)) ==> !Improves(r, at, load, ordered[x], ordered[y])
  }

  /** One pass of first-improvement swaps. */
  method SwapPass(r: Round, ordered: seq<int>, ghost start: map<int, int>, at0: map<int, int>, load0: map<int, real>, swaps0: nat)
    returns (at: map<int, int>, load: map<int, real>, swaps: nat)
    requires r.Valid() && forall t :: t in ordered <==> t in r.tids
    requires Refines(r, start, at0, load0, swaps0)
    ensures Refines(r, start, at, load, swaps) && swaps0 <= swaps
    ensures swaps == swaps0 ==> at == at0 && load == load0 && Settled(r, ordered, at, load, |ordered|, 0)
  {
    hide Refines, Improves;
    at, load, swaps := at0, load0, swaps0;
    RefinesKeys(r, start, at, load, swaps);
    for i := 0 to |ordered|
      invariant forall t :: t in at <==> t in r.tids
      invariant Refines(r, start, at, load, swaps) && swaps0 <= swaps
      invariant swaps == swaps0 ==> at == at0 && load == load0 && Settled(r, ordered, at, load, i, 0)
    {
      for j := i + 1 to |ordered|
        invariant forall t :: t in at <==> t in r.tids
        invariant Refines(r, start, at, load, swaps) && swaps0 <= swaps
        invariant swaps == swaps0 ==> at == at0 && load == load0 && Settled(r, ordered, at, load, i, j)
      {
        var a, b := ordered[i], ordered[j];
        if Improves(r, at, load, a, b) {
          SwapRefines(r, start, at, load, swaps, a, b);
          load := load[at[a] := LoadAfter(r, at, load, a, b)][at[b] := LoadAfter(r, at, load, b, a)];
          at, swaps := Swapped(at, a, b), swaps + 1;
        }
      }
    }
  }

  lemma RefinesKeys(r: Round, start: map<int, int>, at: map<int, int>, load: map<int, real>, swaps: nat)
    requires Refines(r, start, at, load, swaps)
    ensures forall t :: t in at <==> t in r.tids
  {
  }

  /** At most `passes` passes; stops early exactly when a pass finds nothing to swap. */
  method Refine(r: Round, ordered: seq<int>, passes: nat, start: map<int, int>, load0: map<int, real>)
    returns (at: map<int, int>, load: map<int, real>, swaps: nat, settled: bool)
    requires r.Valid() && forall t :: t in ordered <==> t in r.tids
    requires Partition(r, start) && LoadsKnown(r, start, load0)
    ensures Refines(r, start, at, load, swaps)
    ensures settled ==> (forall t :: t in ordered ==> t in at) && Settled(r, ordered, at, load, |ordered|, 0)
    ensures !settled ==> swaps >= passes
  {
    at, load, swaps, settled := start, load0, 0, false;
    for pass := 0 to passes
      invariant Refines(r, start, at, load, swaps) && pass <= swaps && !settled
    {
      hide Refines, Settled, Improves;
      var seen := swaps;
      at, load, swaps := SwapPass(r, ordered, start, at, load, swaps);
      RefinesKeys(r, start, at, load, swaps);
      if swaps == seen {
        settled := true;
        break;
      }
    }
  }
}
