/** From a node plan to a CPU for every thread (src/solver.cpp:1025-1061), and the whole
planning round put together. */
module CpuPlanner {
  import opened Lists
  import opened Counting
  import opened Topology
  import opened Threads
  import opened NodePlanner

  function CpuLists(hw: Machine): map<int, seq<int>> {
    map n | n in Nodes(hw) :: CpusIn(hw, n)
  }

  /** Lists of CPUs per node: never empty, no CPU twice, no CPU in two lists. */
  predicate GoodLists(lists: map<int, seq<int>>) {
    && (forall n :: n in lists ==> lists[n] != [] && Distinct(lists[n]))
    && (forall n, m, c :: n in lists && m in lists && c in lists[n] && c in lists[m] ==> n == m)
  }

  lemma MachineLists(hw: Machine)
    ensures GoodLists(CpuLists(hw))
    ensures forall n :: n in CpuLists(hw) ==> |CpuLists(hw)[n]| == NodeSize(hw, n)
    ensures forall n, c :: n in CpuLists(hw) && c in CpuLists(hw)[n] ==> c in NodeMap(hw) && CpuNode(hw, c) == n
  {
    var lists := CpuLists(hw);
    forall n | n in lists
      ensures lists[n] != [] && Distinct(lists[n]) && |lists[n]| == NodeSize(hw, n)
      ensures forall c :: c in lists[n] ==> c in NodeMap(hw) && CpuNode(hw, c) == n
    {
      NodeNonEmpty(hw, n);
      CpusInNode(hw, n);
    }
  }

  function CpuLatency(hw: Machine): (int, int) -> real {
    (a, b) => Latency(hw, a, b)
  }

  /** Relation cost of `tid` on `cpu` towards the threads that already have a CPU. */
  function CpuPull(latency: (int, int) -> real, edges: seq<Edge>, tid: int, at: map<int, int>, cpu: int): real {
    if edges == [] then 0.0
    else
      var e, rest := edges[0], CpuPull(latency, edges[1..], tid, at, cpu);
      if Touches(e, tid) && Other(e, tid) in at
      then e.score * latency(cpu, at[Other(e, tid)]) + rest
      else rest
  }

  /** The objective of lines 1048-1051; a full CPU loses to any CPU with a free slot. */
  function CpuKey(r: Round, latency: (int, int) -> real, slot: int, preferred: int,
                  at: map<int, int>, load: map<int, real>, count: map<int, int>, tid: int, cpu: int): seq<real>
  {
    [ Bit(Get(count, cpu) >= slot),
      Max(0.0, GetReal(load, cpu) + r.Demand(tid) - 1.0),
      CpuPull(latency, r.edges, tid, at, cpu),
      GetReal(load, cpu) + r.Demand(tid),
      Get(count, cpu) as real,
      Bit(cpu != preferred),
      cpu as real ]
  }

  predicate Targeted(lists: map<int, seq<int>>, nodeAt: map<int, int>, at: map<int, int>) {
    forall t :: t in at ==> t in nodeAt && nodeAt[t] in lists && at[t] in lists[nodeAt[t]]
  }

  /** No CPU holds more than `slot` threads. */
  ghost predicate SlotsKept(at: map<int, int>, slot: int) {
    forall c :: Count(at, c) <= slot
  }

  predicate RoomOnNodes(lists: map<int, seq<int>>, nodeAt: map<int, int>, slot: int) {
    forall n :: n in lists ==> Count(nodeAt, n) <= slot * |lists[n]|
  }

  /** A thread whose node has slots for all its threads finds a CPU with a free slot. */
  lemma FreeCpuInNode(lists: map<int, seq<int>>, nodeAt: map<int, int>, at: map<int, int>, slot: int, tid: int)
    requires GoodLists(lists) && Targeted(lists, nodeAt, at) && RoomOnNodes(lists, nodeAt, slot)
    requires tid in nodeAt && tid !in at && nodeAt[tid] in lists
    ensures exists c :: c in lists[nodeAt[tid]] && Count(at, c) < slot
  {
    var n := nodeAt[tid];
    var here := map t | t in at && nodeAt[t] == n :: at[t];
    forall t | t in here
      ensures t in Members(nodeAt, n) - {tid}
    {
      assert t in at;
    }
    SubsetCard(here.Keys, Members(nodeAt, n) - {tid});
    CardWithout(Members(nodeAt, n), tid);
    assert |here| == |here.Keys|;
    SomePlaceBelowConst(lists[n], here, slot);
    var c :| c in lists[n] && Count(here, c) < slot;
    forall t | t in Members(at, c)
      ensures t in Members(here, c)
    {
      assert at[t] in lists[nodeAt[t]] && at[t] in lists[n];
    }
    assert Members(at, c) == Members(here, c);
  }

  /** Threads that keep the slot cap on the CPUs of their nodes leave room on every node. */
  lemma SlotsNeedRoom(lists: map<int, seq<int>>, nodeAt: map<int, int>, at: map<int, int>, slot: int)
    requires GoodLists(lists) && Targeted(lists, nodeAt, at) && SlotsKept(at, slot) && (forall t :: t in nodeAt ==> t in at)
    ensures RoomOnNodes(lists, nodeAt, slot)
  {
    forall n | n in lists
      ensures Count(nodeAt, n) <= slot * |lists[n]|
    {
      NodeWithinSlots(lists, nodeAt, at, slot, n);
    }
  }

  lemma NodeWithinSlots(lists: map<int, seq<int>>, nodeAt: map<int, int>, at: map<int, int>, slot: int, n: int)
    requires GoodLists(lists) && Targeted(lists, nodeAt, at) && SlotsKept(at, slot) && (forall t :: t in nodeAt ==> t in at) && n in lists
    ensures Count(nodeAt, n) <= slot * |lists[n]|
  {
    var here := map t | t in at && nodeAt[t] == n :: at[t];
    forall t
      ensures t in here.Keys <==> t in Members(nodeAt, n)
    {
    }
    assert here.Keys == Members(nodeAt, n);
    assert |here| == |here.Keys|;
    SumCounts(lists[n], here);
    forall c | c in lists[n]
      ensures Count(here, c) <= slot
    {
      CountSub(here, at, c);
    }
    SumLe(lists[n], c => Count(here, c), c => slot);
    SumConst(lists[n], slot);
  }

  lemma SlotsAfter(at: map<int, int>, slot: int, tid: int, cpu: int)
    requires SlotsKept(at, slot) && tid !in at && Count(at, cpu) < slot
    ensures SlotsKept(at[tid := cpu], slot)
  {
    var next := at[tid := cpu];
    forall c
      ensures Count(next, c) <= slot
    {
      CountSet(at, tid, cpu, c);
    }
  }

  method ChooseCpu(r: Round, latency: (int, int) -> real, slot: int, preferred: int, candidates: seq<int>,
                   at: map<int, int>, load: map<int, real>, count: map<int, int>, tid: int)
    returns (best: int)
    requires candidates != []
    ensures best in candidates
    ensures forall c :: c in candidates ==>
      !LexLess(CpuKey(r, latency, slot, preferred, at, load, count, tid, c), CpuKey(r, latency, slot, preferred, at, load, count, tid, best))
    ensures (exists c :: c in candidates && Get(count, c) < slot) ==> Get(count, best) < slot
    ensures CountsKnown(at, count) && CpuLoadsKnown(r, at, load) ==>
      forall c :: c in candidates ==> !LexLess(SeatKey(r, latency, slot, preferred, at, tid, c), SeatKey(r, latency, slot, preferred, at, tid, best))
  {
    hide CountsKnown, CpuLoadsKnown, SeatKey, CpuPull;
    best := ArgMin(candidates, c => CpuKey(r, latency, slot, preferred, at, load, count, tid, c));
    if CountsKnown(at, count) && CpuLoadsKnown(r, at, load) {
      forall c | c in candidates
        ensures !LexLess(SeatKey(r, latency, slot, preferred, at, tid, c), SeatKey(r, latency, slot, preferred, at, tid, best))
      {
        SeatKeyIs(r, latency, slot, preferred, at, load, count, tid, c);
        SeatKeyIs(r, latency, slot, preferred, at, load, count, tid, best);
        hide CpuKey;
      }
    }
    if exists c :: c in candidates && Get(count, c) < slot {
      var c :| c in candidates && Get(count, c) < slot;
      LexFirst(CpuKey(r, latency, slot, preferred, at, load, count, tid, c),
               CpuKey(r, latency, slot, preferred, at, load, count, tid, best));
    }
  }

  /** The objective with the loads and populations of the seats themselves. */
  function SeatKey(r: Round, latency: (int, int) -> real, slot: int, preferred: int, at: map<int, int>, tid: int, cpu: int): seq<real> {
    [ Bit(Count(at, cpu) >= slot),
      Max(0.0, Load(r.tids, r.demand, at, cpu) + r.Demand(tid) - 1.0),
      CpuPull(latency, r.edges, tid, at, cpu),
      Load(r.tids, r.demand, at, cpu) + r.Demand(tid),
      Count(at, cpu) as real,
      Bit(cpu != preferred),
      cpu as real ]
  }

  lemma SeatKeyIs(r: Round, latency: (int, int) -> real, slot: int, preferred: int,
                  at: map<int, int>, load: map<int, real>, count: map<int, int>, tid: int, cpu: int)
    requires CountsKnown(at, count) && CpuLoadsKnown(r, at, load)
    ensures CpuKey(r, latency, slot, preferred, at, load, count, tid, cpu) == SeatKey(r, latency, slot, preferred, at, tid, cpu)
  {
    hide Load, Count, CpuPull;
  }

  ghost predicate CpuLoadsKnown(r: Round, at: map<int, int>, load: map<int, real>) {
    forall c :: GetReal(load, c) == Load(r.tids, r.demand, at, c)
  }

  lemma CpuLoadsStart(r: Round)
    ensures CpuLoadsKnown(r, map[], map[])
  {
    forall c
      ensures Load(r.tids, r.demand, map[], c) == 0.0
    {
      LoadEmpty(r.tids, r.demand, c);
    }
  }

  lemma CpuLoadsAfter(r: Round, at: map<int, int>, load: map<int, real>, tid: int, cpu: int)
    requires r.Valid() && CpuLoadsKnown(r, at, load) && tid in r.tids && tid !in at
    ensures CpuLoadsKnown(r, at[tid := cpu], load[cpu := GetReal(load, cpu) + r.Demand(tid)])
  {
    var next, more := at[tid := cpu], load[cpu := GetReal(load, cpu) + r.Demand(tid)];
    forall c
      ensures GetReal(more, c) == Load(r.tids, r.demand, next, c)
    {
      LoadSet(r.tids, r.demand, at, tid, cpu, c);
    }
  }

  ghost predicate CountsKnown(at: map<int, int>, count: map<int, int>) {
    forall c :: Get(count, c) == Count(at, c)
  }

  lemma CountsKnownAfter(at: map<int, int>, count: map<int, int>, tid: int, cpu: int)
    requires CountsKnown(at, count) && tid !in at
    ensures CountsKnown(at[tid := cpu], count[cpu := Get(count, cpu) + 1])
  {
    var next := at[tid := cpu];
    forall c
      ensures Get(count[cpu := Get(count, cpu) + 1], c) == Count(next, c)
    {
      CountSet(at, tid, cpu, c);
    }
  }

  /** The state of the CPU loop after the threads of `order[..i]`. */
  ghost predicate CpuPartial(r: Round, lists: map<int, seq<int>>, slot: int, nodeAt: map<int, int>, order: seq<int>, i: nat,
                             at: map<int, int>, load: map<int, real>, count: map<int, int>)
    requires i <= |order|
  {
    && (forall t :: t in at <==> t in order[..i])
    && Targeted(lists, nodeAt, at)
    && CountsKnown(at, count) && CpuLoadsKnown(r, at, load)
    && (RoomOnNodes(lists, nodeAt, slot) ==> SlotsKept(at, slot))
  }

  lemma CpuStep(r: Round, lists: map<int, seq<int>>, slot: int, nodeAt: map<int, int>, order: seq<int>, i: nat,
                at: map<int, int>, load: map<int, real>, count: map<int, int>, best: int)
    requires r.Valid() && GoodLists(lists) && Distinct(order) && i < |order|
    requires CpuPartial(r, lists, slot, nodeAt, order, i, at, load, count)
    requires order[i] in r.tids && order[i] in nodeAt && nodeAt[order[i]] in lists
    requires var cpus := lists[nodeAt[order[i]]];
      best in cpus && ((exists c :: c in cpus && Get(count, c) < slot) ==> Get(count, best) < slot)
    ensures CpuPartial(r, lists, slot, nodeAt, order, i + 1, at[order[i] := best],
                       load[best := GetReal(load, best) + r.Demand(order[i])], count[best := Get(count, best) + 1])
  {
    hide CpuLoadsKnown;
    var tid := order[i];
    assert tid !in at;
    if RoomOnNodes(lists, nodeAt, slot) {
      FreeCpuInNode(lists, nodeAt, at, slot, tid);
      var c :| c in lists[nodeAt[tid]] && Count(at, c) < slot;
      assert Get(count, c) < slot;
      SlotsAfter(at, slot, tid, best);
    }
    CountsKnownAfter(at, count, tid, best);
    CpuLoadsAfter(r, at, load, tid, best);
    assert order[..i + 1] == order[..i] + [tid];
  }

  /** All threads, by falling demand and then by identity. */
  ghost predicate HeaviestOrder(r: Round, order: seq<int>) {
    && Distinct(order) && (forall t :: t in order <==> t in r.tids)
    && SortedBy(order, t => [-r.Demand(t)] + r.IdKey(t))
  }

  method HeaviestFirst(r: Round) returns (order: seq<int>)
    requires r.Valid()
    ensures HeaviestOrder(r, order)
  {
    var key := t => [-r.Demand(t)] + r.IdKey(t);
    order := SortBy(r.tids, key);
    SortBySorted(r.tids, key);
    SameElements(r.tids, order);
    SortKeepsDistinct(r.tids, order);
  }

  /** Each thread is on the CPU of its node with the least objective, given the threads before it. */
  ghost predicate SeatedBest(r: Round, latency: (int, int) -> real, slot: int, lists: map<int, seq<int>>, baseline: map<int, int>,
                             nodeAt: map<int, int>, order: seq<int>, at: map<int, int>, n: nat)
    requires n <= |order|
  {
    forall i, c :: 0 <= i < n && Get(nodeAt, order[i]) in lists && c in lists[Get(nodeAt, order[i])] ==>
      !LexLess(SeatKey(r, latency, slot, Get(baseline, order[i]), Earlier(at, order, i), order[i], c),
               SeatKey(r, latency, slot, Get(baseline, order[i]), Earlier(at, order, i), order[i], Get(at, order[i])))
  }

  /** The seats that the CPU loop computes. */
  ghost predicate BestSeats(r: Round, latency: (int, int) -> real, slot: int, lists: map<int, seq<int>>, baseline: map<int, int>,
                         nodeAt: map<int, int>, at: map<int, int>)
  {
    exists order :: HeaviestOrder(r, order) && SeatedBest(r, latency, slot, lists, baseline, nodeAt, order, at, |order|)
  }

  lemma SeatedMore(r: Round, latency: (int, int) -> real, slot: int, lists: map<int, seq<int>>, baseline: map<int, int>,
                   nodeAt: map<int, int>, order: seq<int>, at: map<int, int>, i: nat, best: int)
    requires i < |order| && Distinct(order) && (forall t :: t in at <==> t in order[..i])
    requires SeatedBest(r, latency, slot, lists, baseline, nodeAt, order, at, i)
    requires Get(nodeAt, order[i]) in lists
    requires forall c :: c in lists[Get(nodeAt, order[i])] ==>
      !LexLess(SeatKey(r, latency, slot, Get(baseline, order[i]), at, order[i], c),
               SeatKey(r, latency, slot, Get(baseline, order[i]), at, order[i], best))
    ensures SeatedBest(r, latency, slot, lists, baseline, nodeAt, order, at[order[i] := best], i + 1)
  {
    hide SeatKey, LexLess, Earlier;
    var next := at[order[i] := best];
    EarlierAll(at, order, i);
    forall j, c | 0 <= j < i + 1 && Get(nodeAt, order[j]) in lists && c in lists[Get(nodeAt, order[j])]
      ensures !LexLess(SeatKey(r, latency, slot, Get(baseline, order[j]), Earlier(next, order, j), order[j], c),
                       SeatKey(r, latency, slot, Get(baseline, order[j]), Earlier(next, order, j), order[j], Get(next, order[j])))
    {
      EarlierSame(at, order, j, i, best);
      if j < i {
        assert order[j] != order[i];
      }
    }
  }

  lemma SeatedNone(r: Round, latency: (int, int) -> real, slot: int, lists: map<int, seq<int>>, baseline: map<int, int>,
                   nodeAt: map<int, int>, order: seq<int>)
    ensures SeatedBest(r, latency, slot, lists, baseline, nodeAt, order, map[], 0)
  {
  }

  lemma CpuPartialParts(r: Round, lists: map<int, seq<int>>, slot: int, nodeAt: map<int, int>, order: seq<int>, i: nat,
                        at: map<int, int>, load: map<int, real>, count: map<int, int>)
    requires i <= |order| && CpuPartial(r, lists, slot, nodeAt, order, i, at, load, count)
    ensures CountsKnown(at, count) && CpuLoadsKnown(r, at, load) && forall t :: t in at <==> t in order[..i]
  {
    hide CountsKnown, CpuLoadsKnown, Targeted, RoomOnNodes, SlotsKept;
  }

  /** A CPU on its planned node for every thread, heaviest thread first.  The slot cap holds exactly
  if every node has slots for its threads. */
  method AssignCpus(r: Round, latency: (int, int) -> real, slot: int, lists: map<int, seq<int>>,
                    baseline: map<int, int>, nodeAt: map<int, int>)
    returns (at: map<int, int>)
    requires r.Valid() && GoodLists(lists) && slot >= 1
    requires forall t :: t in nodeAt <==> t in r.tids
    requires forall t :: t in nodeAt ==> nodeAt[t] in lists
    ensures (forall t :: t in at <==> t in r.tids) && Targeted(lists, nodeAt, at)
    ensures SlotsKept(at, slot) <==> RoomOnNodes(lists, nodeAt, slot)
    ensures BestSeats(r, latency, slot, lists, baseline, nodeAt, at)
  {
    hide *;
    var order := HeaviestFirst(r);
    at := map[];
    var load: map<int, real>, count: map<int, int> := map[], map[];
    CpuPartialStart(r, lists, slot, nodeAt, order);
    SeatedNone(r, latency, slot, lists, baseline, nodeAt, order);
    for i := 0 to |order|
      invariant CpuPartial(r, lists, slot, nodeAt, order, i, at, load, count)
      invariant SeatedBest(r, latency, slot, lists, baseline, nodeAt, order, at, i)
    {
      var tid := order[i];
      NextSeat(r, lists, nodeAt, order, i);
      CpuPartialParts(r, lists, slot, nodeAt, order, i, at, load, count);
      var best := ChooseCpu(r, latency, slot, Get(baseline, tid), lists[nodeAt[tid]], at, load, count, tid);
      CpuStep(r, lists, slot, nodeAt, order, i, at, load, count, best);
      SeatedMore(r, latency, slot, lists, baseline, nodeAt, order, at, i, best);
      at := at[tid := best];
      load := load[best := GetReal(load, best) + r.Demand(tid)];
      count := count[best := Get(count, best) + 1];
    }
    CpuPartialEnd(r, lists, slot, nodeAt, order, at, load, count);
    SeatsAre(r, latency, slot, lists, baseline, nodeAt, order, at);
    if SlotsKept(at, slot) {
      SlotsNeedRoom(lists, nodeAt, at, slot);
    }
  }

  lemma CpuPartialStart(r: Round, lists: map<int, seq<int>>, slot: int, nodeAt: map<int, int>, order: seq<int>)
    requires slot >= 1
    ensures CpuPartial(r, lists, slot, nodeAt, order, 0, map[], map[], map[])
  {
    CpuLoadsStart(r);
    hide CpuLoadsKnown;
  }

  /** The next thread has a node with CPUs. */
  lemma NextSeat(r: Round, lists: map<int, seq<int>>, nodeAt: map<int, int>, order: seq<int>, i: nat)
    requires HeaviestOrder(r, order) && GoodLists(lists) && i < |order|
    requires (forall t :: t in nodeAt <==> t in r.tids) && (forall t :: t in nodeAt ==> nodeAt[t] in lists)
    ensures Distinct(order) && order[i] in r.tids && order[i] in nodeAt && Get(nodeAt, order[i]) == nodeAt[order[i]]
    ensures nodeAt[order[i]] in lists && lists[nodeAt[order[i]]] != []
  {
    hide SortedBy, Distinct;
    var t := order[i];
    assert t in order;
  }

  lemma CpuPartialEnd(r: Round, lists: map<int, seq<int>>, slot: int, nodeAt: map<int, int>, order: seq<int>,
                      at: map<int, int>, load: map<int, real>, count: map<int, int>)
    requires HeaviestOrder(r, order) && CpuPartial(r, lists, slot, nodeAt, order, |order|, at, load, count)
    requires forall t :: t in nodeAt <==> t in r.tids
    ensures (forall t :: t in at <==> t in r.tids) && Targeted(lists, nodeAt, at) && (RoomOnNodes(lists, nodeAt, slot) ==> SlotsKept(at, slot))
    ensures forall t :: t in nodeAt ==> t in at
  {
    hide SortedBy, Distinct, Targeted, RoomOnNodes, SlotsKept, CountsKnown, CpuLoadsKnown;
    assert order[..|order|] == order;
  }

  lemma SeatsAre(r: Round, latency: (int, int) -> real, slot: int, lists: map<int, seq<int>>, baseline: map<int, int>,
                 nodeAt: map<int, int>, order: seq<int>, at: map<int, int>)
    requires HeaviestOrder(r, order) && SeatedBest(r, latency, slot, lists, baseline, nodeAt, order, at, |order|)
    ensures BestSeats(r, latency, slot, lists, baseline, nodeAt, at)
  {
    hide HeaviestOrder, SeatedBest;
  }

  // ----- the whole round -----

  /** A node plan that keeps every node between its floor and its cap. */
  ghost predicate InBand(r: Round, at: map<int, int>) {
    Partition(r, at) && WithinCaps(r, at) && WithinFloors(r, at)
  }

  lemma RoundValid(hw: Machine, slack: real, slot: int, threads: map<int, Thread>, baseline: map<int, int>, edges: seq<Edge>)
    requires forall e :: e in edges ==> e.from != e.to && e.from in threads && e.to in threads
    ensures MakeRound(hw, slack, slot, threads, baseline, edges).Valid()
  {
    NodesCover(hw);
  }

  /** What one planning window computes: the greedy partition after floor repair, refined by swaps that
  keep every population, bound every node load and lower the relation cost, each by more than
  the tolerance; and no swap is left to make unless the passes were used up. */
  ghost predicate Refined(r: Round, passes: nat, plan: map<int, int>, start: map<int, int>, load: map<int, real>, swaps: nat) {
    && Reached(r, start) && WithinFloors(r, start) && (Feasible(r) ==> WithinCaps(r, start))
    && Refines(r, start, plan, load, swaps)
    && (swaps < passes ==> forall a, b :: a in r.tids && b in r.tids && a != b && a in plan && b in plan ==>
          !Improves(r, plan, load, a, b))
  }

  lemma SettledPairs(r: Round, ordered: seq<int>, at: map<int, int>, load: map<int, real>)
    requires forall t :: t in ordered <==> t in r.tids
    requires forall t :: t in ordered ==> t in at
    requires Settled(r, ordered, at, load, |ordered|, 0)
    ensures forall a, b :: a in r.tids && b in r.tids && a != b && a in at && b in at ==>
      !Improves(r, at, load, a, b)
  {
    hide Improves;
    forall a, b | a in r.tids && b in r.tids && a != b
      ensures !Improves(r, at, load, a, b)
    {
      assert a in ordered && b in ordered;
      var x :| 0 <= x < |ordered| && ordered[x] == a;
      var y :| 0 <= y < |ordered| && ordered[y] == b;
      ImprovesSymmetric(r, at, load, a, b);
    }
  }

  /** Lines 806-995: the partition computed in one planning window.  It fails only when
  a node stays below its floor; see `NodePlanner.Stuck`. */
  method PlanNodes(r: Round, passes: nat) returns (plan: Result<map<int, int>>)
    requires r.Valid()
    ensures plan.Ok? ==> Partition(r, plan.value) && WithinFloors(r, plan.value)
    ensures plan.Ok? && Feasible(r) ==> InBand(r, plan.value)
    ensures plan.Ok? ==> exists start, load, swaps :: Refined(r, passes, plan.value, start, load, swaps)
    ensures plan.Err? ==> exists at, n :: Stuck(r, at, n)
  {
    var ordered, seeds, course := CommunityOrder(r);
    var at, load, count := PlaceGreedily(r, ordered, seeds);
    GreedyIs(r, course, at);
    ReachedFirst(r, at);
    hide Reached, GreedyStart;
    var ok;
    ok, at, load, count := RepairFloors(r, at, load, count);
    if !ok {
      hide Stuck;
      return Err("node thread floor is infeasible");
    }
    ghost var repaired := at;
    var swaps, settled;
    at, load, swaps, settled := Refine(r, ordered, passes, at, load);
    RefinesPartition(r, repaired, at, load, swaps);
    if settled {
      SettledPairs(r, ordered, at, load);
    }
    assert Refined(r, passes, at, repaired, load, swaps);
    return Ok(at);
  }

  lemma GreedyIs(r: Round, c: Ordering, at: map<int, int>)
    requires Ordered(r, c) && Distinct(Listing(c.steps)) && (forall t :: t in Listing(c.steps) <==> t in r.tids)
    requires PlacedBest(r, Listing(c.steps), Starters(c), at, |Listing(c.steps)|)
    ensures GreedyStart(r, at)
  {
    hide Ordered, PlacedBest, Listing, Starters;
    assert ListsAll(r, c);
  }

  lemma RefinesPartition(r: Round, start: map<int, int>, at: map<int, int>, load: map<int, real>, swaps: nat)
    requires Refines(r, start, at, load, swaps)
    ensures Partition(r, at)
    ensures WithinFloors(r, start) ==> WithinFloors(r, at)
    ensures WithinCaps(r, start) ==> WithinCaps(r, at)
  {
  }

  /** The caps of a round never exceed the slots of a node. */
  lemma CapsWithinSlots(hw: Machine, m: nat, slack: real, slot: int, at: map<int, int>)
    requires forall n :: n in Nodes(hw) ==> Count(at, n) <= Get(CapTable(hw, m, slack, slot), n)
    ensures RoomOnNodes(CpuLists(hw), at, slot)
  {
    MachineLists(hw);
    hide Share, CpusIn, NodeSize;
    forall n | n in CpuLists(hw)
      ensures Count(at, n) <= slot * |CpuLists(hw)[n]|
    {
      assert n in Nodes(hw);
    }
  }

  /** No assignment at all can respect the slots when there are more threads than slots. */
  lemma TooManyThreads(hw: Machine, slot: nat, at: map<int, int>)
    requires forall t :: t in at ==> at[t] in NodeMap(hw)
    requires SlotsKept(at, slot)
    ensures |at| <= slot * |hw.cpus|
  {
    IdsAreCpus(hw);
    var ids := Ids(hw);
    SumCounts(ids, at);
    forall c | c in ids
      ensures Count(at, c) <= slot
    {
    }
    SumLe(ids, c => Count(at, c), c => slot);
    SumConst(ids, slot);
  }
}
