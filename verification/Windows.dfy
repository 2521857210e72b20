/** What one planning, pinning or optimizing window does to the solver state, and why the
invariant survives it (src/solver.cpp:806-1557). */
module Windows {
  import opened Lists
  import opened Counting
  import opened Topology
  import opened Threads
  import opened NodePlanner
  import opened CpuPlanner
  import opened Pinning
  import opened Optimizer
  import opened SolverState

  /** Edges between two different managed threads, with a positive score (lines 317-320). */
  function Usable(edges: seq<Edge>, tids: set<int>): (r: seq<Edge>)
    ensures forall e :: e in r ==> e.from != e.to && e.from in tids && e.to in tids && e.score > 0.0
  {
    if edges == [] then []
    else
      var e := edges[0];
      (if e.from != e.to && e.score > 0.0 && e.from in tids && e.to in tids then [e] else []) + Usable(edges[1..], tids)
  }

  // ----- planning windows (lines 997-1064) -----

  /** The plan of an earlier window is kept while the population is the one it was made for. */
  function Planned(s: State, plan: map<int, int>): State {
    if s.plan.previous != map[] && s.plan.candidates == s.book.identities then s.(confirmation := s.confirmation + 1)
    else s.(confirmation := 1, plan := Plan(s.plan.targets, plan, s.book.identities), history := s.history.(firstPlan := plan))
  }

  function PlanConfirmed(s: State, cpu: map<int, int>): State {
    s.(plan := s.plan.(targets := Targets(cpu, s.plan.previous)), population := |s.book.threads|, phase := InitialPinning)
  }

  /** The plan of one window: a node for every thread, within the band if the slots suffice. */
  ghost predicate GoodPlan(hw: Machine, opt: Options, s: State, plan: map<int, int>) {
    && plan.Keys == s.book.threads.Keys
    && (forall t :: t in plan ==> plan[t] in Nodes(hw))
    && (Roomy(hw, opt, |plan|) ==> Band(hw, opt, |plan|, plan))
  }

  ghost predicate GoodCpus(hw: Machine, nodeAt: map<int, int>, cpu: map<int, int>) {
    && cpu.Keys == nodeAt.Keys
    && (forall t :: t in cpu ==> cpu[t] in NodeMap(hw) && NodeMap(hw)[cpu[t]] == nodeAt[t])
  }

  lemma SubMapRefl(a: map<int, int>)
    ensures SubMap(a, a)
  {
  }

  lemma PlannedPlan(hw: Machine, opt: Options, s: State, plan: map<int, int>)
    requires PlanOk(hw, opt, s) && RecordsOk(s) && GoodPlan(hw, opt, s, plan)
    ensures PlanOk(hw, opt, Planned(s, plan))
    ensures Planned(s, plan).plan.previous.Keys == s.book.threads.Keys
  {
    SubMapRefl(plan);
    hide Band, Roomy, Nodes, SubMap;
  }

  lemma PlannedCore(hw: Machine, opt: Options, s: State, plan: map<int, int>)
    requires Core(hw, opt, s) && s.outstanding.None? && GoodPlan(hw, opt, s, plan)
    ensures Core(hw, opt, Planned(s, plan)) && Planned(s, plan).outstanding.None?
    ensures Planned(s, plan).plan.previous.Keys == s.book.threads.Keys
  {
    PlannedPlan(hw, opt, s, plan);
    hide Plans, GoodPlan, NodeMap, Records, Placed, Moves, Streaks, Slots, Targets.For;
  }

  lemma PlanConfirmedInv(hw: Machine, opt: Options, s: State, cpu: map<int, int>)
    requires Core(hw, opt, s) && s.outstanding.None? && s.plan.previous.Keys == s.book.threads.Keys && GoodCpus(hw, s.plan.previous, cpu)
    ensures Inv(hw, opt, PlanConfirmed(s, cpu))
  {
    hide Plans, Records, Placed, Moves, Streaks, Slots, NodeMap;
  }

  /** A node plan that was made for exactly this population, or under a fixed slot cap,
  leaves room for its threads on the CPUs of every node. */
  lemma PlanHasRoom(hw: Machine, opt: Options, previous: map<int, int>, firstPlan: map<int, int>, m: nat)
    requires SubMap(previous, firstPlan) && Band(hw, opt, |firstPlan|, firstPlan)
    requires |firstPlan| == m || opt.maxPerCpu > 0
    ensures RoomOnNodes(CpuLists(hw), previous, SlotCap(hw, opt, m))
  {
    var k := |firstPlan|;
    var slot := SlotCap(hw, opt, k);
    assert slot == SlotCap(hw, opt, m);
    hide SlotCap;
    forall n | n in Nodes(hw)
      ensures Count(previous, n) <= Get(CapTable(hw, k, opt.slack, slot), n)
    {
      CountSub(previous, firstPlan, n);
      hide CapTable, FloorTable, Count;
    }
    CapsWithinSlots(hw, k, opt.slack, slot, previous);
  }

  /** If nobody was dropped since the plan was made, it is the whole plan of its first window. */
  lemma WholePlan(previous: map<int, int>, firstPlan: map<int, int>)
    requires SubMap(previous, firstPlan) && |firstPlan| == |previous|
    ensures previous == firstPlan
  {
    forall t | t in previous.Keys
      ensures t in firstPlan.Keys
    {
      assert t in previous;
    }
    ProperCard(previous.Keys, firstPlan.Keys);
    assert |previous.Keys| == |previous| && |firstPlan.Keys| == |firstPlan|;
    assert previous.Keys == firstPlan.Keys;
    forall t | t in firstPlan
      ensures t in previous && previous[t] == firstPlan[t]
    {
      assert t in previous.Keys;
    }
    assert previous == firstPlan;
  }

  /** What a planning window that does not throw leaves behind. */
  ghost predicate PlanResult(hw: Machine, opt: Options, s: State, edges: seq<Edge>, t: State, confirmed: bool) {
    && (exists plan :: PlanMade(hw, opt, s, edges, plan, t, confirmed))
    && (confirmed ==> Targeting(hw, opt, s.book, edges, t.plan.targets))
  }

  ghost predicate PlanMade(hw: Machine, opt: Options, s: State, edges: seq<Edge>, plan: map<int, int>, t: State, confirmed: bool) {
    && GoodPlan(hw, opt, s, plan) && Computed(hw, opt, s.book, edges, plan)
    && PlanStep(hw, opt, Planned(s, plan), t, confirmed)
  }

  /** The partition that a window computes for the managed threads and the relations it is given. */
  ghost predicate Computed(hw: Machine, opt: Options, book: Book, edges: seq<Edge>, plan: map<int, int>) {
    exists start, load, swaps :: Refined(RoundOf(hw, opt, book, edges), opt.passes, plan, start, load, swaps)
  }

  lemma ComputedIs(hw: Machine, opt: Options, book: Book, edges: seq<Edge>, plan: map<int, int>)
    requires exists start, load, swaps :: Refined(RoundOf(hw, opt, book, edges), opt.passes, plan, start, load, swaps)
    ensures Computed(hw, opt, book, edges, plan)
  {
    hide Refined, RoundOf;
  }

  /** The targets are the best CPUs for a node plan. */
  ghost predicate Targeting(hw: Machine, opt: Options, book: Book, edges: seq<Edge>, targets: Targets) {
    BestSeats(RoundOf(hw, opt, book, edges), CpuLatency(hw), SlotCap(hw, opt, |book.threads|), CpuLists(hw), book.baseline,
              targets.node, targets.cpu)
  }

  lemma PlanResultPlan(hw: Machine, opt: Options, s: State, edges: seq<Edge>, t: State, confirmed: bool) returns (plan: map<int, int>)
    requires PlanResult(hw, opt, s, edges, t, confirmed)
    ensures GoodPlan(hw, opt, s, plan) && Computed(hw, opt, s.book, edges, plan) && PlanStep(hw, opt, Planned(s, plan), t, confirmed)
  {
    hide GoodPlan, PlanStep, Planned, Computed, Targeting;
    plan :| PlanMade(hw, opt, s, edges, plan, t, confirmed);
  }

  ghost predicate PlanStep(hw: Machine, opt: Options, u: State, t: State, confirmed: bool) {
    && confirmed == (u.confirmation >= opt.planConfirmations)
    && (!confirmed ==> t == u)
    && (confirmed ==> t == PlanConfirmed(u, t.plan.targets.cpu) && GoodCpus(hw, u.plan.previous, t.plan.targets.cpu))
  }

  /** The confirmed plan for `m` threads.  No CPU is over the slot cap exactly if the slots of every
  node suffice for its threads.  That, and the band, hold when the plan was made for this
  population; the slot cap also when it is fixed. */
  ghost predicate PlanPromise(hw: Machine, opt: Options, m: nat, firstPlan: map<int, int>, targets: Targets) {
    && (SlotsKept(targets.cpu, SlotCap(hw, opt, m)) <==> RoomOnNodes(CpuLists(hw), targets.node, SlotCap(hw, opt, m)))
    && (|firstPlan| == m && Roomy(hw, opt, m) ==>
          Band(hw, opt, m, targets.node) && SlotsKept(targets.cpu, SlotCap(hw, opt, m)))
    && (opt.maxPerCpu > 0 && Roomy(hw, opt, |firstPlan|) ==> SlotsKept(targets.cpu, SlotCap(hw, opt, m)))
  }

  lemma PromiseKept(hw: Machine, opt: Options, previous: map<int, int>, firstPlan: map<int, int>, cpu: map<int, int>)
    requires SubMap(previous, firstPlan)
    requires Roomy(hw, opt, |firstPlan|) ==> Band(hw, opt, |firstPlan|, firstPlan)
    requires SlotsKept(cpu, SlotCap(hw, opt, |previous|)) <==> RoomOnNodes(CpuLists(hw), previous, SlotCap(hw, opt, |previous|))
    ensures PlanPromise(hw, opt, |previous|, firstPlan, Targets(cpu, previous))
  {
    hide RoomOnNodes, Band, SlotsKept, CpuLists, SlotCap, Roomy, SubMap;
    if |firstPlan| == |previous| && Roomy(hw, opt, |previous|) {
      PlanHasRoom(hw, opt, previous, firstPlan, |previous|);
      WholePlan(previous, firstPlan);
    }
    if opt.maxPerCpu > 0 && Roomy(hw, opt, |firstPlan|) {
      PlanHasRoom(hw, opt, previous, firstPlan, |previous|);
    }
  }

  lemma FixedCap(hw: Machine, opt: Options, m: nat, k: nat)
    ensures opt.maxPerCpu > 0 ==> SlotCap(hw, opt, m) == SlotCap(hw, opt, k) == opt.maxPerCpu
  {
  }

  lemma FirstPlanNonEmpty(hw: Machine, opt: Options, s: State, plan: map<int, int>)
    requires PlanOk(hw, opt, s) && GoodPlan(hw, opt, s, plan) && s.book.threads != map[]
    ensures Planned(s, plan).history.firstPlan != map[]
  {
    hide Band, Roomy, Nodes;
    Inhabited(s.book.threads.Keys);
    Inhabited(s.plan.previous.Keys);
  }

  lemma PlanKeys(hw: Machine, r: Round, tids: set<int>, plan: map<int, int>)
    requires Partition(r, plan) && r.nodes == Nodes(hw) && forall t :: t in r.tids <==> t in tids
    ensures plan.Keys == tids && |plan| == |tids|
    ensures forall t :: t in plan ==> plan[t] in Nodes(hw)
  {
    hide Nodes;
    forall t
      ensures t in plan.Keys <==> t in tids
    {
    }
    assert plan.Keys == tids;
    assert |plan| == |plan.Keys|;
  }

  lemma PlanBand(hw: Machine, opt: Options, r: Round, m: nat, plan: map<int, int>)
    requires InBand(r, plan) && r.nodes == Nodes(hw)
    requires r.cap == CapTable(hw, m, opt.slack, SlotCap(hw, opt, m)) && r.floor == FloorTable(hw, m, opt.slack)
    ensures Band(hw, opt, m, plan)
  {
    hide Nodes, CapTable, FloorTable, SlotCap, Partition, Count, Get;
  }

  lemma RoundPlan(hw: Machine, opt: Options, s: State, edges: seq<Edge>, plan: map<int, int>)
    requires opt.Valid()
    requires var r := MakeRound(hw, opt.slack, SlotCap(hw, opt, |s.book.threads|), s.book.threads, s.book.baseline, edges);
      Partition(r, plan) && (Feasible(r) ==> InBand(r, plan))
    ensures GoodPlan(hw, opt, s, plan)
  {
    var slot := SlotCap(hw, opt, |s.book.threads|);
    var r := MakeRound(hw, opt.slack, slot, s.book.threads, s.book.baseline, edges);
    RoundIs(hw, opt.slack, slot, s.book.threads, s.book.baseline, edges);
    hide SlotCap, CapTable, FloorTable, Feasible, Nodes, MakeRound, Roomy, Partition, InBand, Band;
    PlanKeys(hw, r, s.book.threads.Keys, plan);
    assert |s.book.threads| == |s.book.threads.Keys|;
    if Roomy(hw, opt, |s.book.threads|) {
      RoomyFeasible(hw, opt, s, edges);
      PlanBand(hw, opt, r, |s.book.threads|, plan);
    }
  }

  lemma RoomyFeasible(hw: Machine, opt: Options, s: State, edges: seq<Edge>)
    requires opt.Valid() && Roomy(hw, opt, |s.book.threads|)
    ensures Feasible(MakeRound(hw, opt.slack, SlotCap(hw, opt, |s.book.threads|), s.book.threads, s.book.baseline, edges))
  {
    hide MakeRound, Feasible, SlotCap;
    RoundFeasible(hw, opt.slack, SlotCap(hw, opt, |s.book.threads|), s.book.threads, s.book.baseline, edges);
  }

  lemma RoundIs(hw: Machine, slack: real, slot: int, threads: map<int, Thread>, baseline: map<int, int>, edges: seq<Edge>)
    ensures var r := MakeRound(hw, slack, slot, threads, baseline, edges);
      && r.nodes == Nodes(hw) && r.cap == CapTable(hw, |threads|, slack, slot) && r.floor == FloorTable(hw, |threads|, slack)
      && (forall t :: t in r.tids <==> t in threads) && r.edges == edges
  {
    hide CapTable, FloorTable, Nodes, SizeTable, CpuNode, NodeLatency;
  }

  /** The planning round of a window. */
  function RoundOf(hw: Machine, opt: Options, book: Book, edges: seq<Edge>): Round {
    MakeRound(hw, opt.slack, SlotCap(hw, opt, |book.threads|), book.threads, book.baseline, Usable(edges, book.threads.Keys))
  }

  lemma RoundParts(hw: Machine, opt: Options, book: Book, edges: seq<Edge>)
    ensures var r := MakeRound(hw, opt.slack, SlotCap(hw, opt, |book.threads|), book.threads, book.baseline, Usable(edges, book.threads.Keys));
      r == RoundOf(hw, opt, book, edges) && r.Valid() && forall t :: t in r.tids <==> t in book.threads
  {
    var slot, hot := SlotCap(hw, opt, |book.threads|), Usable(edges, book.threads.Keys);
    RoundValid(hw, opt.slack, slot, book.threads, book.baseline, hot);
    RoundIs(hw, opt.slack, slot, book.threads, book.baseline, hot);
    hide MakeRound, Usable, SlotCap, Round.Valid;
  }

  lemma PlanningInv(hw: Machine, opt: Options, s: State)
    requires Core(hw, opt, s) && s.phase == NodePlanning
    ensures Inv(hw, opt, s)
  {
    hide Core;
  }

  /** What adopting a plan gives the rest of the window. */
  lemma PlannedFacts(hw: Machine, opt: Options, s: State, plan: map<int, int>)
    requires Core(hw, opt, s) && GoodPlan(hw, opt, s, plan) && s.book.threads != map[]
    ensures var u := Planned(s, plan);
      && u.book == s.book && u.phase == s.phase && u.outstanding == s.outstanding
      && SubMap(u.plan.previous, u.history.firstPlan)
      && (Roomy(hw, opt, |u.history.firstPlan|) ==> Band(hw, opt, |u.history.firstPlan|, u.history.firstPlan))
      && u.plan.previous.Keys == s.book.threads.Keys && |u.plan.previous| == |s.book.threads|
  {
    var u := Planned(s, plan);
    CoreParts(hw, opt, s);
    PlannedPlan(hw, opt, s, plan);
    FirstPlanNonEmpty(hw, opt, s, plan);
    hide Core, GoodPlan, Roomy, Band, SubMap, Nodes, Records;
    assert |u.plan.previous| == |u.plan.previous.Keys| && |s.book.threads| == |s.book.threads.Keys|;
  }

  lemma CoreParts(hw: Machine, opt: Options, s: State)
    requires Core(hw, opt, s)
    ensures RecordsOk(s) && PlacedOk(hw, s) && PlanOk(hw, opt, s) && MovesOk(s) && StreaksOk(s) && SlotsOk(opt, s)
    ensures s.plan.targets.For(NodeMap(hw), {}) && OutstandingOk(hw, opt, s)
  {
    hide Records, Placed, Plans, Moves, Streaks, Slots, Pending, NodeMap, Targets.For;
  }

  lemma PlanOpen(hw: Machine, opt: Options, s: State, edges: seq<Edge>, plan: map<int, int>)
    requires GoodPlan(hw, opt, s, plan) && Computed(hw, opt, s.book, edges, plan) && Planned(s, plan).confirmation < opt.planConfirmations
    ensures PlanResult(hw, opt, s, edges, Planned(s, plan), false)
  {
    hide GoodPlan, Planned, Computed, Targeting;
    assert PlanMade(hw, opt, s, edges, plan, Planned(s, plan), false);
  }

  lemma PlanClosed(hw: Machine, opt: Options, s: State, edges: seq<Edge>, plan: map<int, int>, cpu: map<int, int>)
    requires GoodPlan(hw, opt, s, plan) && Computed(hw, opt, s.book, edges, plan) && Planned(s, plan).confirmation >= opt.planConfirmations
    requires GoodCpus(hw, Planned(s, plan).plan.previous, cpu)
    requires Targeting(hw, opt, s.book, edges, Targets(cpu, Planned(s, plan).plan.previous))
    ensures PlanResult(hw, opt, s, edges, PlanConfirmed(Planned(s, plan), cpu), true)
  {
    hide GoodPlan, Planned, GoodCpus, Computed, Targeting;
    assert PlanMade(hw, opt, s, edges, plan, PlanConfirmed(Planned(s, plan), cpu), true);
  }

  lemma PreviousOnNodes(hw: Machine, opt: Options, s: State)
    requires Core(hw, opt, s)
    ensures forall t :: t in s.plan.previous ==> s.plan.previous[t] in Nodes(hw)
  {
    hide Records, Placed, Moves, Streaks, Slots, Pending, NodeMap, Targets.For, Nodes, Band, Roomy;
  }

  lemma CpusGood(hw: Machine, lists: map<int, seq<int>>, nodeAt: map<int, int>, cpu: map<int, int>)
    requires Targeted(lists, nodeAt, cpu) && forall t :: t in cpu <==> t in nodeAt
    requires forall n, c :: n in lists && c in lists[n] ==> c in NodeMap(hw) && CpuNode(hw, c) == n
    ensures GoodCpus(hw, nodeAt, cpu)
  {
    hide NodeMap;
    forall t
      ensures t in cpu.Keys <==> t in nodeAt.Keys
    {
    }
    assert cpu.Keys == nodeAt.Keys;
    forall t | t in cpu
      ensures cpu[t] in NodeMap(hw) && NodeMap(hw)[cpu[t]] == nodeAt[t]
    {
      var n, c := nodeAt[t], cpu[t];
      assert n in lists && c in lists[n];
      assert CpuNode(hw, c) == n;
    }
  }

  // ----- pinning windows (lines 1140-1153) -----

  function PinActions(hw: Machine, book: Book, placement: map<int, int>, cpu: map<int, int>, batch: seq<int>): (r: seq<Action>)
    requires forall i :: 0 <= i < |batch| ==> batch[i] in book.identities
    ensures |r| == |batch|
    ensures forall i :: 0 <= i < |r| ==> r[i].id == book.identities[batch[i]]
    ensures forall i :: 0 <= i < |r| ==> r[i].to == Get(cpu, batch[i]) && r[i].initial
    ensures forall i :: 0 <= i < |r| ==>
      r[i].from == if batch[i] in placement then placement[batch[i]] else Get(book.baseline, batch[i])
  {
    seq(|batch|, i requires 0 <= i < |batch| =>
      var t := batch[i];
      var from := if t in placement then placement[t] else Get(book.baseline, t);
      Action(book.identities[t], from, Get(cpu, t), true, CpuNode(hw, from) < 0))
  }

  function WithBatch(s: State, targets: Targets, p: Proposal): State {
    s.(plan := s.plan.(targets := targets), outstanding := Some(p))
  }

  /** Committing the whole batch leads to the placement that the repair projected. */
  lemma PinOutcome(hw: Machine, s: State, cpu: map<int, int>, batch: seq<int>)
    requires RecordsOk(s) && s.place.placement.Keys <= s.book.threads.Keys && Distinct(batch)
    requires forall i :: 0 <= i < |batch| ==> batch[i] in s.book.threads && batch[i] in cpu
    ensures Outcome(s, PinActions(hw, s.book, s.place.placement, cpu, batch)) == Projected(s.place.placement, s.book.threads.Keys, batch, |batch|, cpu)
  {
    var actions := PinActions(hw, s.book, s.place.placement, cpu, batch);
    var a, b := Outcome(s, actions), Projected(s.place.placement, s.book.threads.Keys, batch, |batch|, cpu);
    assert batch[..|batch|] == batch;
    PinTids(hw, s, cpu, batch);
    forall t
      ensures t in a <==> t in b
      ensures t in a ==> a[t] == b[t]
    {
      BatchAt(cpu, batch, t);
      if t in batch {
        var i :| 0 <= i < |batch| && batch[i] == t;
        AfterAt(s.place.placement, actions, actions[i]);
      } else {
        AfterElsewhere(s.place.placement, actions, t);
      }
      hide PinActions, Batch, After, TidsOf;
    }
  }

  lemma PinTids(hw: Machine, s: State, cpu: map<int, int>, batch: seq<int>)
    requires RecordsOk(s) && Distinct(batch) && forall i :: 0 <= i < |batch| ==> batch[i] in s.book.threads
    ensures var r := PinActions(hw, s.book, s.place.placement, cpu, batch);
      && (forall i :: 0 <= i < |r| ==> r[i].id.tid == batch[i])
      && (forall i, j :: 0 <= i < j < |r| ==> r[i].id.tid != r[j].id.tid)
      && (forall t :: t in TidsOf(r) <==> t in batch)
  {
    var r := PinActions(hw, s.book, s.place.placement, cpu, batch);
    forall i | 0 <= i < |r|
      ensures r[i].id.tid == batch[i]
    {
    }
    forall t
      ensures t in TidsOf(r) <==> t in batch
    {
      if t in batch {
        var i :| 0 <= i < |batch| && batch[i] == t;
        assert r[i] in r;
      }
    }
  }

  lemma PinSlots(hw: Machine, opt: Options, s: State, slot: int, cpu: map<int, int>, batch: seq<int>)
    requires SlotsOk(opt, s) && RecordsOk(s) && s.place.placement.Keys <= s.book.threads.Keys && Distinct(batch)
    requires forall i :: 0 <= i < |batch| ==> batch[i] in s.book.threads && batch[i] in cpu
    requires opt.maxPerCpu > 0 ==> slot == opt.maxPerCpu
    requires NoNewOverflow(Staying(s.place.placement, s.book.threads.Keys, batch), Projected(s.place.placement, s.book.threads.Keys, batch, |batch|, cpu), slot)
    ensures Slots(opt, Outcome(s, PinActions(hw, s.book, s.place.placement, cpu, batch)))
  {
    PinOutcome(hw, s, cpu, batch);
    if opt.maxPerCpu > 0 {
      var after := Projected(s.place.placement, s.book.threads.Keys, batch, |batch|, cpu);
      StayingSub(s.place.placement, s.book.threads.Keys, batch);
      hide Projected, Staying, Outcome, PinActions;
      forall c
        ensures Count(after, c) <= opt.maxPerCpu
      {
        CountSub(Staying(s.place.placement, s.book.threads.Keys, batch), s.place.placement, c);
      }
    }
  }

  lemma StayingSub(placement: map<int, int>, tids: set<int>, batch: seq<int>)
    ensures SubMap(Staying(placement, tids, batch), placement)
  {
  }

  lemma PinOutstanding(hw: Machine, opt: Options, s: State, slot: int, targets: Targets, batch: seq<int>, p: Proposal)
    requires SlotsOk(opt, s) && RecordsOk(s) && s.place.placement.Keys <= s.book.threads.Keys && Distinct(batch) && batch != []
    requires forall i :: 0 <= i < |batch| ==> batch[i] in s.book.threads
    requires targets.For(NodeMap(hw), s.book.threads.Keys)
    requires opt.maxPerCpu > 0 ==> slot == opt.maxPerCpu
    requires NoNewOverflow(Staying(s.place.placement, s.book.threads.Keys, batch),
                           Projected(s.place.placement, s.book.threads.Keys, batch, |batch|, targets.cpu), slot)
    requires p.actions == PinActions(hw, s.book, s.place.placement, targets.cpu, batch)
    ensures OutstandingOk(hw, opt, WithBatch(s, targets, p))
  {
    PinSlots(hw, opt, s, slot, targets.cpu, batch);
    PinPending(hw, s, targets, batch);
    hide Slots, NoNewOverflow, Projected, Staying, NodeMap, PinActions;
  }

  lemma PinPending(hw: Machine, s: State, targets: Targets, batch: seq<int>)
    requires RecordsOk(s) && Distinct(batch) && forall i :: 0 <= i < |batch| ==> batch[i] in s.book.threads
    requires targets.For(NodeMap(hw), s.book.threads.Keys)
    ensures var r := PinActions(hw, s.book, s.place.placement, targets.cpu, batch);
      && (forall i, j :: 0 <= i < j < |r| ==> r[i].id.tid != r[j].id.tid)
      && (forall a :: a in r ==> a.to in NodeMap(hw))
      && (forall a :: a in r && a.id.tid in s.book.identities ==> s.book.identities[a.id.tid] == a.id)
  {
    PinTids(hw, s, targets.cpu, batch);
    hide NodeMap, TidsOf, CpuNode;
  }

  lemma WithBatchInv(hw: Machine, opt: Options, s: State, targets: Targets, p: Proposal)
    requires Inv(hw, opt, s) && targets.For(NodeMap(hw), s.book.threads.Keys) && OutstandingOk(hw, opt, WithBatch(s, targets, p))
    ensures Inv(hw, opt, WithBatch(s, targets, p))
  {
    hide OutstandingOk, Plans, Records, Placed, Moves, Streaks, Slots, NodeMap;
  }

  /** The threads that pinning still has to deal with. */
  function PendingOf(s: State): set<int> {
    PendingSet(s.book.threads.Keys, s.place.pinned, s.replan, s.place.placement, s.plan.targets.cpu)
  }

  /** A pinning window takes the first `budget` pending threads. */
  ghost predicate PinStep(hw: Machine, s: State, t: State, p: Proposal, batch: seq<int>) {
    && Distinct(batch) && (forall x :: x in batch ==> x in PendingOf(s))
    && |batch| == (if |PendingOf(s)| < p.budget then |PendingOf(s)| else p.budget)
    && t.plan.targets.For(NodeMap(hw), s.book.threads.Keys)
    && (forall x :: x in s.book.threads && x !in batch ==> Get(t.plan.targets.cpu, x) == Get(s.plan.targets.cpu, x))
    && (forall i :: 0 <= i < |batch| ==> batch[i] in s.book.identities)
    && p.actions == PinActions(hw, s.book, s.place.placement, t.plan.targets.cpu, batch)
    && p.ready == (p.actions != [])
    && t == (if p.ready then WithBatch(s, t.plan.targets, p) else s.(plan := s.plan.(targets := t.plan.targets)))
  }

  /** Off-envelope first, then off-node, then heavier, then by identity (lines 1077-1088). */
  function PinOrder(hw: Machine, book: Book, nodes: map<int, int>, t: int): seq<real> {
    var home := CpuNode(hw, Get(book.baseline, t));
    [Bit(home >= 0), Bit(home == Get(nodes, t)), -PinDemand(book, t)] + PinIdentity(book, t)
  }

  function PinDemand(book: Book, t: int): real {
    if t in book.threads then book.threads[t].demand else 0.0
  }

  function PinIdentity(book: Book, t: int): seq<real> {
    if t in book.identities then IdentityKey(book.identities[t]) else []
  }

  function PinRank(hw: Machine, book: Book, nodes: map<int, int>): int -> seq<real> {
    t => PinOrder(hw, book, nodes, t)
  }

  /** The batch is in pinning order, and no pending thread outside comes before one inside. */
  ghost predicate FirstPending(s: State, key: int -> seq<real>, batch: seq<int>) {
    SortedBy(batch, key) && forall b, t :: b in batch && t in PendingOf(s) && t !in batch ==> !LexLess(key(t), key(b))
  }

  /** The repaired targets: none is given up without need, and no CPU is pushed over the slot cap. */
  ghost predicate Repaired(hw: Machine, opt: Options, s: State, targets: Targets, batch: seq<int>) {
    var placement, tids, slot := s.place.placement, s.book.threads.Keys, SlotCap(hw, opt, |s.book.threads|);
    && NoNewOverflow(Staying(placement, tids, batch), Projected(placement, tids, batch, |batch|, targets.cpu), slot)
    && forall j :: 0 <= j < |batch| ==>
         Careful(MakeDeck(hw, slot, s.book.threads), placement, tids, batch, j, s.plan.targets, targets)
  }

  ghost predicate PinResult(hw: Machine, opt: Options, s: State, t: State, p: Proposal) {
    exists batch ::
      && PinStep(hw, s, t, p, batch)
      && FirstPending(s, PinRank(hw, s.book, s.plan.targets.node), batch) && Repaired(hw, opt, s, t.plan.targets, batch)
  }

  lemma PinResultBatch(hw: Machine, opt: Options, s: State, t: State, p: Proposal) returns (batch: seq<int>)
    requires PinResult(hw, opt, s, t, p)
    ensures PinStep(hw, s, t, p, batch) && Repaired(hw, opt, s, t.plan.targets, batch)
    ensures FirstPending(s, PinRank(hw, s.book, s.plan.targets.node), batch)
  {
    hide PinStep, FirstPending, Repaired, PinRank;
    batch :| PinStep(hw, s, t, p, batch) && FirstPending(s, PinRank(hw, s.book, s.plan.targets.node), batch)
             && Repaired(hw, opt, s, t.plan.targets, batch);
  }

  function MakeDeck(hw: Machine, slot: int, threads: map<int, Thread>): Deck {
    Deck(Ids(hw), CpuLists(hw), NodeMap(hw), slot, map t | t in threads :: threads[t].demand)
  }

  lemma DeckValid(hw: Machine, slot: int, threads: map<int, Thread>)
    requires slot >= 1
    ensures MakeDeck(hw, slot, threads).Valid()
  {
    IdsAreCpus(hw);
    MachineLists(hw);
    NodesCover(hw);
    hide Ids, Nodes, NodeMap, CpusIn;
  }

  /** Replacing targets by targets for the same machine keeps the invariant. */
  lemma RetargetInv(hw: Machine, opt: Options, s: State, targets: Targets)
    requires Inv(hw, opt, s) && s.outstanding.None? && targets.For(NodeMap(hw), s.book.threads.Keys)
    ensures Inv(hw, opt, s.(plan := s.plan.(targets := targets)))
  {
    hide Plans, Records, Placed, Moves, Streaks, Slots, NodeMap;
  }

  // ----- optimizing windows (lines 1160-1167, 1459-1468) -----

  function MakeBoard(hw: Machine, slot: int, threads: map<int, Thread>): Board {
    Board(Ids(hw), Nodes(hw), SizeTable(hw), NodeMap(hw), slot, Ascending(threads.Keys),
          map t | t in threads :: threads[t].demand)
  }

  lemma BoardValid(hw: Machine, slot: int, threads: map<int, Thread>)
    ensures var b := MakeBoard(hw, slot, threads);
      b.Valid() && (forall c :: c in b.cpus <==> c in NodeMap(hw)) && (forall t :: t in b.tids <==> t in threads)
  {
    IdsAreCpus(hw);
    NodesCover(hw);
    hide Ids, Nodes, NodeMap, SizeTable;
  }

  function AddTables(b: Board, x: Tables, t: int, c: int): Tables {
    Tables(x.cpu[c := GetReal(x.cpu, c) + b.Demand(t)],
           x.node[b.Node(c) := GetReal(x.node, b.Node(c)) + b.Demand(t)],
           x.count[c := Get(x.count, c) + 1])
  }

  lemma AddProjects(b: Board, at: map<int, int>, x: Tables, t: int, c: int)
    requires b.Valid() && Projects(b, at, x) && t in b.tids && t !in at
    ensures Projects(b, at[t := c], AddTables(b, x, t, c))
  {
    forall k | k in b.cpus
      ensures GetReal(AddTables(b, x, t, c).cpu, k) == Load(b.tids, b.demand, at[t := c], k)
      ensures Get(AddTables(b, x, t, c).count, k) == Count(at[t := c], k)
    {
      LoadSet(b.tids, b.demand, at, t, c, k);
      CountSet(at, t, c, k);
    }
    NodeAtSet(b, at, t, c);
    forall n | n in b.nodes
      ensures GetReal(AddTables(b, x, t, c).node, n) == Load(b.tids, b.demand, NodeAt(b, at[t := c]), n)
    {
      LoadSet(b.tids, b.demand, NodeAt(b, at), t, b.Node(c), n);
    }
  }

  lemma EmptyProjects(b: Board)
    ensures Projects(b, map[], Tables(map[], map[], map[]))
  {
    forall p
      ensures Load(b.tids, b.demand, map[], p) == 0.0
    {
      LoadEmpty(b.tids, b.demand, p);
    }
    assert NodeAt(b, map[]) == map[];
  }

  /** Lines 1160-1167: the loads and populations of the current placement. */
  method BuildTables(b: Board, placement: map<int, int>) returns (x: Tables)
    requires b.Valid() && placement.Keys == set t | t in b.tids
    ensures Projects(b, placement, x)
  {
    x := Tables(map[], map[], map[]);
    ghost var at: map<int, int> := map[];
    EmptyProjects(b);
    for i := 0 to |b.tids|
      invariant forall t :: t in at <==> t in b.tids[..i]
      invariant SubMap(at, placement)
      invariant Projects(b, at, x)
    {
      hide Projects;
      var t := b.tids[i];
      assert t in b.tids;
      NotYet(b.tids, i, at);
      assert t in placement.Keys;
      AddProjects(b, at, x, t, placement[t]);
      assert b.tids[..i + 1] == b.tids[..i] + [t];
      at, x := at[t := placement[t]], AddTables(b, x, t, placement[t]);
    }
    assert b.tids[..|b.tids|] == b.tids;
    forall t
      ensures t in at <==> t in placement
    {
      assert t in placement.Keys <==> t in b.tids;
    }
    assert at.Keys == placement.Keys;
    forall t | t in at
      ensures at[t] == placement[t]
    {
    }
    assert at == placement;
  }

  /** Who changed CPU too recently to move again. */
  function Cooling(lastMoved: map<int, nat>, dwell: nat, now: nat): set<int> {
    set t | t in lastMoved && now - lastMoved[t] < dwell
  }

  function KeysOf(potentials: seq<Potential>): set<Key> {
    set p | p in potentials :: KeyOf(p.actions)
  }

  /** Lines 1465-1468. */
  function NextConfirmations(old': map<Key, nat>, keys: set<Key>): map<Key, nat> {
    map k | k in keys :: (if k in old' then old'[k] else 0) + 1
  }

  lemma NextStreaks(old': map<Key, nat>, evals: seq<set<Key>>, keys: set<Key>)
    requires Streaks(old', evals)
    ensures Streaks(NextConfirmations(old', keys), evals + [keys])
  {
    var longer := evals + [keys];
    assert longer[..|longer| - 1] == evals;
    var next := NextConfirmations(old', keys);
    forall k
      ensures k in next ==> next[k] == Streak(longer, k)
      ensures k !in next ==> Streak(longer, k) == 0
    {
    }
  }

  function Evaluated(s: State, keys: set<Key>): State {
    s.(confirmations := NextConfirmations(s.confirmations, keys), history := s.history.(evals := s.history.evals + [keys]))
  }

  function WithActions(s: State, p: Proposal): State {
    s.(outstanding := Some(p))
  }

  lemma EvaluatedInv(hw: Machine, opt: Options, s: State, keys: set<Key>)
    requires Inv(hw, opt, s)
    ensures Inv(hw, opt, Evaluated(s, keys))
  {
    NextStreaks(s.confirmations, s.history.evals, keys);
    hide Plans, Records, Placed, Moves, Streaks, Slots, Pending, NodeMap, Targets.For, NextConfirmations;
  }

  lemma WithActionsInv(hw: Machine, opt: Options, s: State, p: Proposal)
    requires Inv(hw, opt, s) && OutstandingOk(hw, opt, WithActions(s, p))
    ensures Inv(hw, opt, WithActions(s, p))
  {
    hide OutstandingOk, Plans, Records, Placed, Moves, Streaks, Slots, NodeMap, Targets.For;
  }

  /** An accepted batch keeps a fixed slot cap. */
  lemma OptimizeSlots(hw: Machine, opt: Options, s: State, b: Board, actions: seq<Action>)
    requires SlotsOk(opt, s) && PlacedOk(hw, s) && s.place.pinned == s.book.threads.Keys
    requires opt.maxPerCpu > 0 ==> b.slot == opt.maxPerCpu
    requires forall c :: c in b.cpus <==> c in NodeMap(hw)
    requires WellFormed(b, s.place.placement, actions)
    requires SlotViolation(b, After(s.place.placement, actions)) <= SlotViolation(b, s.place.placement)
    ensures Outcome(s, actions) == After(s.place.placement, actions)
    ensures Slots(opt, Outcome(s, actions))
  {
    var after := After(s.place.placement, actions);
    AfterKeys(s.place.placement, actions);
    assert Outcome(s, actions) == after;
    if opt.maxPerCpu > 0 {
      ViolationZero(b, s.place.placement);
      ViolationZero(b, after);
      AfterOnline(NodeMap(hw).Keys, s.place.placement, actions);
      hide SlotViolation, After, NodeMap;
      forall c
        ensures Count(after, c) <= opt.maxPerCpu
      {
        if c !in b.cpus {
          Inhabited(Members(after, c));
        }
      }
    }
  }

  /** At least the dwell time has passed since the thread last changed CPU. */
  ghost predicate Rested(events: seq<Event>, id: Identity, dwell: nat, now: nat) {
    var last := LastMove(events, id);
    last.Some? ==> now - last.value >= dwell
  }

  /** The ranked threads that have a placement. */
  function PlacedOf(ranked: seq<int>, placement: map<int, int>): (r: seq<int>)
    ensures forall t :: t in r <==> t in ranked && t in placement
    ensures Distinct(ranked) ==> Distinct(r)
  {
    if ranked == [] then []
    else
      var n := |ranked| - 1;
      var rest, t := PlacedOf(ranked[..n], placement), ranked[n];
      assert ranked == ranked[..n] + [t];
      if t in placement then rest + [t] else rest
  }

  /** What one evaluation looks at: the scene of the current state, and exactly the potentials of
  the examined threads in it, in the order of their keys. */
  ghost predicate Evaluates(hw: Machine, opt: Options, s: State, edges: seq<Edge>, ranked: seq<int>, now: nat,
                            scene: Scene, potentials: seq<Potential>)
  {
    && scene == MakeScene(hw, opt, SlotCap(hw, opt, |s.book.threads|), s.book, s.place, Usable(edges, s.book.threads.Keys),
                          scene.x, Cooling(s.place.lastMoved, opt.dwell, now))
    && Projects(scene.b, scene.at, scene.x)
    && SortedBy(potentials, PotentialKey)
    && (forall p :: p in potentials <==> IsPotential(scene, PlacedOf(ranked, s.place.placement), p))
  }

  /** The batch of an evaluation. */
  function Chosen(opt: Options, s: State, scene: Scene, potentials: seq<Potential>, budget: nat): seq<Potential> {
    Greedy(scene, potentials, NextConfirmations(s.confirmations, KeysOf(potentials)), opt.confirmations, budget)
  }

  /** What one evaluation proposes: the greedy batch of its potentials.  It is within the budget,
  moves nobody twice, does not raise the total slot violation, raises the total overload by at
  most the tolerance per accepted potential, and its calm potentials are rested and were
  candidates in the last `confirmations` evaluations. */
  ghost predicate OptimizeStep(hw: Machine, opt: Options, s: State, t: State, p: Proposal, edges: seq<Edge>, ranked: seq<int>, now: nat,
                               scene: Scene, potentials: seq<Potential>)
  {
    var b := MakeBoard(hw, SlotCap(hw, opt, |s.book.threads|), s.book.threads);
    var after := After(s.place.placement, p.actions);
    var chosen := Chosen(opt, s, scene, potentials, p.budget);
    var next := Evaluated(s, KeysOf(potentials));
    && Evaluates(hw, opt, s, edges, ranked, now, scene, potentials)
    && p.actions == Flatten(chosen) && p.ready == (p.actions != []) && |p.actions| <= p.budget
    && t == (if p.ready then WithActions(next, p) else next)
    && WellFormed(b, s.place.placement, p.actions)
    && SlotViolation(b, after) <= SlotViolation(b, s.place.placement)
    && OverloadOf(b, after) <= OverloadOf(b, s.place.placement) + |chosen| as real * EPS
    && (forall q :: q in chosen && !q.emergency ==>
          Streak(t.history.evals, KeyOf(q.actions)) >= opt.confirmations)
    && (forall q, a :: q in chosen && a in q.actions ==>
          !a.initial && a.emergency == q.emergency && (!a.emergency ==> Rested(s.history.events, a.id, opt.dwell, now)))
  }

  ghost predicate OptimizeResult(hw: Machine, opt: Options, s: State, t: State, p: Proposal, edges: seq<Edge>, ranked: seq<int>, now: nat) {
    exists scene, potentials :: OptimizeStep(hw, opt, s, t, p, edges, ranked, now, scene, potentials)
  }

  function MakeScene(hw: Machine, opt: Options, slot: int, book: Book, place: Place, hot: seq<Edge>, x: Tables, cooling: set<int>): Scene {
    Scene(MakeBoard(hw, slot, book.threads), place.placement, book.identities, hot, (a, b) => Latency(hw, a, b), x, cooling,
          opt.minGain, opt.threshold)
  }

  lemma SceneValid(hw: Machine, opt: Options, s: State, slot: int, hot: seq<Edge>, x: Tables, cooling: set<int>)
    requires RecordsOk(s) && PlacedOk(hw, s)
    ensures MakeScene(hw, opt, slot, s.book, s.place, hot, x, cooling).Valid()
  {
    BoardValid(hw, slot, s.book.threads);
    hide MakeBoard, NodeMap, Board.Valid;
    var c := MakeScene(hw, opt, slot, s.book, s.place, hot, x, cooling);
    forall t | t in c.at
      ensures t in c.b.tids && t in c.ids && c.ids[t].tid == t && c.at[t] in c.b.cpus
    {
      assert t in s.book.threads;
    }
  }

  lemma CalmIsRested(s: State, id: Identity, dwell: nat, now: nat)
    requires MovesOk(s) && id.tid in s.book.identities && s.book.identities[id.tid] == id
    requires id.tid !in Cooling(s.place.lastMoved, dwell, now)
    ensures Rested(s.history.events, id, dwell, now)
  {
    hide LastMove;
    assert LastMove(s.history.events, s.book.identities[id.tid]) == Lookup(s.place.lastMoved, id.tid);
  }

  lemma ConfirmedStreak(s: State, keys: set<Key>, needed: nat, q: Potential)
    requires StreaksOk(s) && !q.emergency && Confirmed(NextConfirmations(s.confirmations, keys), needed, q)
    ensures Streak(Evaluated(s, keys).history.evals, KeyOf(q.actions)) >= needed
  {
    NextStreaks(s.confirmations, s.history.evals, keys);
    hide NextConfirmations, Streak;
  }

  lemma OptimizePending(hw: Machine, opt: Options, s: State, b: Board, p: Proposal)
    requires RecordsOk(s) && SlotsOk(opt, s) && PlacedOk(hw, s) && s.place.pinned == s.book.threads.Keys
    requires opt.maxPerCpu > 0 ==> b.slot == opt.maxPerCpu
    requires forall c :: c in b.cpus <==> c in NodeMap(hw)
    requires WellFormed(b, s.place.placement, p.actions) && p.actions != []
    requires forall a :: a in p.actions ==> a.id.tid in s.book.identities && s.book.identities[a.id.tid] == a.id
    requires SlotViolation(b, After(s.place.placement, p.actions)) <= SlotViolation(b, s.place.placement)
    ensures OutstandingOk(hw, opt, WithActions(s, p))
  {
    OptimizeSlots(hw, opt, s, b, p.actions);
    assert Outcome(WithActions(s, p), p.actions) == Outcome(s, p.actions);
    hide Outcome, Slots, NodeMap, SlotViolation, Records, Placed;
  }

  // ----- facts that the class methods assemble -----

  lemma PinReady(hw: Machine, opt: Options, s: State, d: Deck, slot: int, batch: seq<int>)
    requires Inv(hw, opt, s) && s.phase == InitialPinning && d == MakeDeck(hw, slot, s.book.threads)
    requires forall t :: t in batch ==> t in PendingOf(s)
    ensures d.nodeOf == NodeMap(hw) && s.plan.targets.For(d.nodeOf, s.book.threads.Keys)
    ensures forall t :: t in batch ==> t in s.book.threads.Keys
    ensures forall i :: 0 <= i < |batch| ==> batch[i] in s.book.threads && batch[i] in s.book.identities
    ensures forall t :: t in s.place.placement ==> s.place.placement[t] in d.nodeOf
  {
    hide NodeMap, Plans, Moves, Streaks, Slots, Pending, Ids, CpuLists, PendingOf;
    PendingManaged(s);
    forall i | 0 <= i < |batch|
      ensures batch[i] in s.book.threads && batch[i] in s.book.identities
    {
      var x := batch[i];
      assert x in batch;
      assert x in PendingOf(s);
    }
  }

  lemma PendingManaged(s: State)
    ensures PendingOf(s) <= s.book.threads.Keys
  {
  }

  lemma DeckRoomy(hw: Machine, opt: Options, slot: int, threads: map<int, Thread>)
    requires slot == SlotCap(hw, opt, |threads|)
    ensures var d := MakeDeck(hw, slot, threads); d.slot == slot && (Roomy(hw, opt, |threads|) <==> |threads| <= d.slot * |d.cpus|)
  {
    IdsAreCpus(hw);
    hide Ids, CpuLists, NodeMap, SlotCap;
  }

  lemma PinBatchInv(hw: Machine, opt: Options, s: State, slot: int, targets: Targets, batch: seq<int>, p: Proposal)
    requires Inv(hw, opt, s) && Distinct(batch) && batch != []
    requires forall i :: 0 <= i < |batch| ==> batch[i] in s.book.threads && batch[i] in s.book.identities
    requires targets.For(NodeMap(hw), s.book.threads.Keys)
    requires opt.maxPerCpu > 0 ==> slot == opt.maxPerCpu
    requires NoNewOverflow(Staying(s.place.placement, s.book.threads.Keys, batch),
                           Projected(s.place.placement, s.book.threads.Keys, batch, |batch|, targets.cpu), slot)
    requires p.actions == PinActions(hw, s.book, s.place.placement, targets.cpu, batch)
    ensures Inv(hw, opt, WithBatch(s, targets, p))
  {
    hide Core, NodeMap, NoNewOverflow, Staying, Projected, PinActions, Targets.For;
    CoreParts(hw, opt, s);
    PlacedInside(hw, s);
    PinOutstanding(hw, opt, s, slot, targets, batch, p);
    WithBatchInv(hw, opt, s, targets, p);
  }

  lemma PlacedInside(hw: Machine, s: State)
    requires PlacedOk(hw, s)
    ensures s.place.placement.Keys <= s.book.threads.Keys
  {
    hide NodeMap;
  }

  /** A cut of an ordered list has what comes first. */
  lemma CutFirst(order: seq<int>, key: int -> seq<real>, n: nat)
    requires Distinct(order) && SortedBy(order, key) && n <= |order|
    ensures Distinct(order[..n]) && SortedBy(order[..n], key) && forall t :: t in order[..n] ==> t in order
    ensures forall b, t :: b in order[..n] && t in order && t !in order[..n] ==> !LexLess(key(t), key(b))
  {
    hide LexLess;
    var batch := order[..n];
    assert forall k :: 0 <= k < n ==> batch[k] == order[k] && batch[k] in batch;
    forall b, t | b in batch && t in order && t !in batch
      ensures !LexLess(key(t), key(b))
    {
      var i :| 0 <= i < n && batch[i] == b;
      var j :| 0 <= j < |order| && order[j] == t;
      assert order[i] == b;
    }
  }

  /** A set in the order of a key, cut to a length. */
  method FirstBy(pending: set<int>, key: int -> seq<real>, budget: nat) returns (batch: seq<int>)
    ensures Distinct(batch) && forall t :: t in batch ==> t in pending
    ensures |batch| == if |pending| < budget then |pending| else budget
    ensures SortedBy(batch, key) && forall b, t :: b in batch && t in pending && t !in batch ==> !LexLess(key(t), key(b))
  {
    hide *;
    var list := Ascending(pending);
    var order := SortBy(list, key);
    AscendingDistinct(pending);
    SortBySorted(list, key);
    SameElements(list, order);
    SortKeepsDistinct(list, order);
    assert forall t :: t in order <==> t in pending;
    CutFirst(order, key, if |order| < budget then |order| else budget);
    batch := if |order| < budget then order else order[..budget];
    assert order[..|order|] == order;
  }

  lemma PinDone(hw: Machine, opt: Options, s: State, t: State, p: Proposal, batch: seq<int>)
    requires Distinct(batch) && forall x :: x in batch ==> x in PendingOf(s)
    requires |batch| == (if |PendingOf(s)| < p.budget then |PendingOf(s)| else p.budget)
    requires t.plan.targets.For(NodeMap(hw), s.book.threads.Keys)
    requires s.book.threads.Keys <= s.plan.targets.cpu.Keys && t.plan.targets.cpu.Keys == s.plan.targets.cpu.Keys
    requires forall x :: x in s.plan.targets.cpu && x !in batch ==> t.plan.targets.cpu[x] == s.plan.targets.cpu[x]
    requires forall i :: 0 <= i < |batch| ==> batch[i] in s.book.threads && batch[i] in s.book.identities
    requires p.actions == PinActions(hw, s.book, s.place.placement, t.plan.targets.cpu, batch)
    requires p.ready == (p.actions != [])
    requires t == (if p.ready then WithBatch(s, t.plan.targets, p) else s.(plan := s.plan.(targets := t.plan.targets)))
    requires FirstPending(s, PinRank(hw, s.book, s.plan.targets.node), batch) && Repaired(hw, opt, s, t.plan.targets, batch)
    ensures PinResult(hw, opt, s, t, p)
  {
    hide PendingOf, NodeMap, Targets.For, PinActions, WithBatch, FirstPending, Repaired, PinRank;
    forall x | x in s.book.threads && x !in batch
      ensures Get(t.plan.targets.cpu, x) == Get(s.plan.targets.cpu, x)
    {
      assert x in s.plan.targets.cpu.Keys;
    }
    assert PinStep(hw, s, t, p, batch);
  }

  lemma OptimizeReady(hw: Machine, opt: Options, s: State, slot: int)
    requires Inv(hw, opt, s) && s.phase == Optimizing
    ensures var b := MakeBoard(hw, slot, s.book.threads);
      b.Valid() && s.place.placement.Keys == (set t | t in b.tids)
    ensures RecordsOk(s) && PlacedOk(hw, s)
  {
    BoardValid(hw, slot, s.book.threads);
    hide MakeBoard, Board.Valid, NodeMap, Plans, Moves, Streaks, Slots, Pending, Targets.For;
    var b := MakeBoard(hw, slot, s.book.threads);
    forall t
      ensures t in s.place.placement.Keys <==> t in (set t | t in b.tids)
    {
    }
  }

  lemma {:induction false} FlattenMember(chosen: seq<Potential>, a: Action)
    ensures a in Flatten(chosen) <==> exists q :: q in chosen && a in q.actions
  {
    if chosen != [] {
      var n := |chosen| - 1;
      FlattenMember(chosen[..n], a);
      assert chosen == chosen[..n] + [chosen[n]];
    }
  }

  lemma ActionsKnown(s: State, scene: Scene, confirmations: map<Key, nat>, needed: int, budget: nat, chosen: seq<Potential>, y: Tables)
    requires BatchState(scene, confirmations, needed, budget, chosen, y) && scene.ids == s.book.identities
    ensures forall a :: a in Flatten(chosen) ==> a.id.tid in s.book.identities && s.book.identities[a.id.tid] == a.id
  {
    forall a | a in Flatten(chosen)
      ensures a.id.tid in s.book.identities && s.book.identities[a.id.tid] == a.id
    {
      FlattenMember(chosen, a);
      var q :| q in chosen && a in q.actions;
      assert Admissible(scene, q);
      hide Projects, TableViolation, TableOverload, Confirmed, WellFormed;
    }
  }

  lemma CalmActions(hw: Machine, opt: Options, s: State, now: nat, scene: Scene, confirmations: map<Key, nat>, budget: nat,
                    chosen: seq<Potential>, y: Tables)
    requires BatchState(scene, confirmations, opt.confirmations, budget, chosen, y)
    requires scene.ids == s.book.identities && scene.cooling == Cooling(s.place.lastMoved, opt.dwell, now) && MovesOk(s)
    ensures forall q, a :: q in chosen && a in q.actions ==>
      !a.initial && a.emergency == q.emergency && (!a.emergency ==> Rested(s.history.events, a.id, opt.dwell, now))
  {
    hide Projects, TableViolation, TableOverload, Confirmed, WellFormed, MovesOk, Rested, Cooling, Flatten;
    forall q, a | q in chosen && a in q.actions
      ensures !a.initial && a.emergency == q.emergency && (!a.emergency ==> Rested(s.history.events, a.id, opt.dwell, now))
    {
      assert Admissible(scene, q);
      if !a.emergency {
        CalmIsRested(s, a.id, opt.dwell, now);
      }
    }
  }

  lemma ChosenStreaks(s: State, keys: set<Key>, scene: Scene, confirmations: map<Key, nat>, needed: nat, budget: nat,
                      chosen: seq<Potential>, y: Tables)
    requires BatchState(scene, confirmations, needed, budget, chosen, y) && StreaksOk(s)
    requires confirmations == NextConfirmations(s.confirmations, keys)
    ensures forall q :: q in chosen && !q.emergency ==> Streak(s.history.evals + [keys], KeyOf(q.actions)) >= needed
  {
    hide Projects, TableViolation, TableOverload, Confirmed, WellFormed, StreaksOk, Streak, Admissible, NextConfirmations, KeyOf, Flatten;
    forall q | q in chosen && !q.emergency
      ensures Streak(s.history.evals + [keys], KeyOf(q.actions)) >= needed
    {
      ConfirmedStreak(s, keys, needed, q);
    }
  }

  lemma OptimizeDone(hw: Machine, opt: Options, s: State, p: Proposal, edges: seq<Edge>, ranked: seq<int>, now: nat,
                     scene: Scene, potentials: seq<Potential>, y: Tables)
    requires Inv(hw, opt, s) && s.phase == Optimizing && s.outstanding.None?
    requires Evaluates(hw, opt, s, edges, ranked, now, scene, potentials) && scene.Valid()
    requires var next := NextConfirmations(s.confirmations, KeysOf(potentials));
      BatchState(scene, next, opt.confirmations, p.budget, Chosen(opt, s, scene, potentials, p.budget), y)
    requires p.actions == Flatten(Chosen(opt, s, scene, potentials, p.budget)) && p.ready == (p.actions != [])
    ensures var e := Evaluated(s, KeysOf(potentials)); var t := if p.ready then WithActions(e, p) else e;
      OptimizeResult(hw, opt, s, t, p, edges, ranked, now) && Inv(hw, opt, t)
  {
    hide *;
    var keys := KeysOf(potentials);
    EvaluatesScene(hw, opt, s, edges, ranked, now, scene, potentials);
    OptimizeFacts(hw, opt, s, p, now, keys, NextConfirmations(s.confirmations, keys), Chosen(opt, s, scene, potentials, p.budget), scene, y);
    OptimizeIs(hw, opt, s, p, edges, ranked, now, scene, potentials);
    EvaluatedInv(hw, opt, s, keys);
    if p.ready {
      OptimizeBatchInv(hw, opt, s, p, now, keys, Chosen(opt, s, scene, potentials, p.budget));
    }
  }

  lemma EvaluatesScene(hw: Machine, opt: Options, s: State, edges: seq<Edge>, ranked: seq<int>, now: nat,
                       scene: Scene, potentials: seq<Potential>)
    requires Evaluates(hw, opt, s, edges, ranked, now, scene, potentials)
    ensures scene.b == MakeBoard(hw, SlotCap(hw, opt, |s.book.threads|), s.book.threads) && scene.at == s.place.placement
    ensures scene.ids == s.book.identities && scene.cooling == Cooling(s.place.lastMoved, opt.dwell, now)
    ensures Projects(scene.b, scene.at, scene.x)
  {
    hide MakeBoard, Cooling, Projects, SortedBy, IsPotential, SlotCap, Usable, PlacedOf;
  }

  /** The facts about a batch that `OptimizeStep` lists. */
  ghost predicate BatchFacts(hw: Machine, opt: Options, s: State, p: Proposal, now: nat, keys: set<Key>, chosen: seq<Potential>) {
    var b := MakeBoard(hw, SlotCap(hw, opt, |s.book.threads|), s.book.threads);
    var after := After(s.place.placement, p.actions);
    && |p.actions| <= p.budget
    && WellFormed(b, s.place.placement, p.actions)
    && SlotViolation(b, after) <= SlotViolation(b, s.place.placement)
    && OverloadOf(b, after) <= OverloadOf(b, s.place.placement) + |chosen| as real * EPS
    && (forall q :: q in chosen && !q.emergency ==> Streak(s.history.evals + [keys], KeyOf(q.actions)) >= opt.confirmations)
    && (forall q, a :: q in chosen && a in q.actions ==>
          !a.initial && a.emergency == q.emergency && (!a.emergency ==> Rested(s.history.events, a.id, opt.dwell, now)))
    && (forall a :: a in p.actions ==> a.id.tid in s.book.identities && s.book.identities[a.id.tid] == a.id)
  }

  lemma OptimizeFacts(hw: Machine, opt: Options, s: State, p: Proposal, now: nat, keys: set<Key>, next: map<Key, nat>,
                      chosen: seq<Potential>, scene: Scene, y: Tables)
    requires Inv(hw, opt, s)
    requires next == NextConfirmations(s.confirmations, keys)
    requires scene.b == MakeBoard(hw, SlotCap(hw, opt, |s.book.threads|), s.book.threads) && scene.at == s.place.placement
    requires scene.ids == s.book.identities && scene.cooling == Cooling(s.place.lastMoved, opt.dwell, now)
    requires scene.Valid() && Projects(scene.b, scene.at, scene.x)
    requires BatchState(scene, next, opt.confirmations, p.budget, chosen, y) && p.actions == Flatten(chosen)
    ensures BatchFacts(hw, opt, s, p, now, keys, chosen)
  {
    hide Core, Projects, BatchState, NextConfirmations, MakeBoard, SlotCap, Cooling, Flatten, Scene.Valid;
    hide SlotViolation, OverloadOf, WellFormed, After, Streak, Rested, KeyOf, NodeMap, Records, Placed, Plans, Moves, Streaks, Slots, Pending;
    NumberedCore(hw, opt, s);
    CoreParts(hw, opt, s);
    BatchSafe(scene, next, opt.confirmations, p.budget, chosen, y);
    CalmActions(hw, opt, s, now, scene, next, p.budget, chosen, y);
    ChosenStreaks(s, keys, scene, next, opt.confirmations, p.budget, chosen, y);
    ActionsKnown(s, scene, next, opt.confirmations, p.budget, chosen, y);
  }

  lemma OptimizeIs(hw: Machine, opt: Options, s: State, p: Proposal, edges: seq<Edge>, ranked: seq<int>, now: nat,
                   scene: Scene, potentials: seq<Potential>)
    requires Evaluates(hw, opt, s, edges, ranked, now, scene, potentials)
    requires BatchFacts(hw, opt, s, p, now, KeysOf(potentials), Chosen(opt, s, scene, potentials, p.budget))
    requires p.actions == Flatten(Chosen(opt, s, scene, potentials, p.budget)) && p.ready == (p.actions != [])
    ensures var e := Evaluated(s, KeysOf(potentials));
      OptimizeResult(hw, opt, s, if p.ready then WithActions(e, p) else e, p, edges, ranked, now)
  {
    hide NextConfirmations, MakeBoard, SlotCap, Flatten, SlotViolation, OverloadOf, WellFormed, After, Streak, Rested, KeyOf;
    hide Evaluates, Chosen, KeysOf;
    var e := Evaluated(s, KeysOf(potentials));
    var t := if p.ready then WithActions(e, p) else e;
    assert t.history.evals == s.history.evals + [KeysOf(potentials)];
    assert OptimizeStep(hw, opt, s, t, p, edges, ranked, now, scene, potentials);
  }

  lemma OptimizeBatchInv(hw: Machine, opt: Options, s: State, p: Proposal, now: nat, keys: set<Key>, chosen: seq<Potential>)
    requires Inv(hw, opt, s) && s.phase == Optimizing && p.actions != []
    requires BatchFacts(hw, opt, s, p, now, keys, chosen)
    ensures Inv(hw, opt, WithActions(Evaluated(s, keys), p))
  {
    hide Inv, MakeBoard, SlotCap, SlotViolation, OverloadOf, WellFormed, After, Streak, Rested, KeyOf, NodeMap, Evaluated, RecordsOk;
    hide SlotsOk, PlacedOk, OutstandingOk;
    var slot := SlotCap(hw, opt, |s.book.threads|);
    var b := MakeBoard(hw, slot, s.book.threads);
    BoardValid(hw, slot, s.book.threads);
    FixedCap(hw, opt, |s.book.threads|, 0);
    BoardSlot(hw, slot, s.book.threads);
    EvaluatedInv(hw, opt, s, keys);
    EvaluatedParts(hw, opt, s, keys);
    OptimizePending(hw, opt, Evaluated(s, keys), b, p);
    WithActionsInv(hw, opt, Evaluated(s, keys), p);
  }

  lemma BoardSlot(hw: Machine, slot: int, threads: map<int, Thread>)
    ensures MakeBoard(hw, slot, threads).slot == slot
  {
  }

  lemma EvaluatedParts(hw: Machine, opt: Options, s: State, keys: set<Key>)
    requires Inv(hw, opt, s) && s.phase == Optimizing
    ensures var e := Evaluated(s, keys);
      && RecordsOk(e) && SlotsOk(opt, e) && PlacedOk(hw, e) && e.place.pinned == e.book.threads.Keys
      && e.book == s.book && e.place == s.place
  {
    hide Records, Placed, Plans, Moves, Streaks, Slots, Pending, NodeMap, Targets.For, NextConfirmations;
  }

  // ----- the result of a whole call -----

  /** The state in which the phase of a window starts. */
  function Numbered(s: State): State {
    s.(nextId := s.nextId + 1,
       phase := if s.book.threads == map[] then Uninitialized else if s.phase == Uninitialized then NodePlanning else s.phase)
  }

  /** What a call of `propose` does after the records are up to date, phase by phase.  It
  throws only in two cases: a node cannot reach its floor, or there are more threads than slots. */
  ghost predicate WindowDone(hw: Machine, opt: Options, s: State, t: State, r: Result<Proposal>, edges: seq<Edge>, ranked: seq<int>, now: nat) {
    var u := Numbered(s);
    var budget := Budget(|s.book.threads|, if s.phase == InitialPinning then opt.initialRatio else opt.ratio);
    && (r.Ok? ==> r.value.id == s.nextId && r.value.budget == budget)
    && (u.phase == Uninitialized ==> t == u && r.Ok? && !r.value.ready)
    && (u.phase == NodePlanning ==> match r
          case Ok(p) => !p.ready && PlanResult(hw, opt, u, edges, t, p.planConfirmed)
            && (p.planConfirmed ==> PlanPromise(hw, opt, |t.book.threads|, t.history.firstPlan, t.plan.targets))
          case Err(_) => t == u && exists at, n :: Stuck(RoundOf(hw, opt, u.book, edges), at, n))
    && (u.phase == InitialPinning ==> match r
          case Ok(p) => if budget == 0 then t == u && !p.ready else PinResult(hw, opt, u, t, p)
          case Err(_) => !Roomy(hw, opt, |u.book.threads|) && t == u.(plan := u.plan.(targets := t.plan.targets)))
    && (u.phase == Optimizing ==> match r
          case Ok(p) => if budget == 0 then t == u && !p.ready else OptimizeResult(hw, opt, u, t, p, edges, ranked, now)
          case Err(_) => false)
  }

  lemma NumberedInv(hw: Machine, opt: Options, s: State, phase: Phase)
    requires Inv(hw, opt, s) && s.outstanding.None?
    requires phase == Numbered(s).phase
    ensures Inv(hw, opt, s.(nextId := s.nextId + 1, phase := phase))
    ensures s.(nextId := s.nextId + 1, phase := phase) == Numbered(s)
  {
    hide Records, Placed, Plans, Moves, Streaks, Slots, NodeMap, Targets.For;
  }

  lemma NumberedCore(hw: Machine, opt: Options, s: State)
    requires Inv(hw, opt, s)
    ensures Core(hw, opt, s)
  {
    hide Core, PhaseOk;
  }

  lemma WindowIdle(hw: Machine, opt: Options, s: State, t: State, r: Result<Proposal>, edges: seq<Edge>, ranked: seq<int>, now: nat)
    requires s.book.threads == map[] && t == Numbered(s)
    requires r == Ok(Proposal(s.nextId, Uninitialized, [], Budget(|s.book.threads|, if s.phase == InitialPinning then opt.initialRatio else opt.ratio), false, false))
    ensures WindowDone(hw, opt, s, t, r, edges, ranked, now)
  {
    hide Budget;
  }

  lemma WindowPlanned(hw: Machine, opt: Options, s: State, u: State, t: State, r: Result<Proposal>, edges: seq<Edge>, ranked: seq<int>, now: nat)
    requires u == Numbered(s) && u.phase == NodePlanning
    requires r.Err? ==> t == u && exists at, n :: Stuck(RoundOf(hw, opt, t.book, edges), at, n)
    requires r.Ok? ==> r.value == Proposal(s.nextId, t.phase, [], Budget(|s.book.threads|, opt.ratio), r.value.planConfirmed, false)
    requires r.Ok? ==> PlanResult(hw, opt, u, edges, t, r.value.planConfirmed)
    requires r.Ok? && r.value.planConfirmed ==> PlanPromise(hw, opt, |t.book.threads|, t.history.firstPlan, t.plan.targets)
    ensures WindowDone(hw, opt, s, t, r, edges, ranked, now)
  {
    hide Budget, PlanResult, PlanPromise, Stuck, RoundOf;
  }

  lemma WindowPinned(hw: Machine, opt: Options, s: State, u: State, t: State, r: Result<Proposal>, edges: seq<Edge>, ranked: seq<int>, now: nat)
    requires u == Numbered(s) && u.phase == InitialPinning
    requires var budget := Budget(|s.book.threads|, opt.initialRatio);
      && (r.Ok? && budget == 0 ==> t == u && r.value == Proposal(s.nextId, u.phase, [], 0, true, false))
      && (r.Ok? && budget > 0 ==> r.value.budget == budget && r.value.id == s.nextId && PinResult(hw, opt, u, t, r.value))
    requires r.Err? ==> !Roomy(hw, opt, |u.book.threads|) && t == u.(plan := u.plan.(targets := t.plan.targets))
    ensures WindowDone(hw, opt, s, t, r, edges, ranked, now)
  {
    hide Budget, PinResult, Roomy;
  }

  lemma WindowOptimized(hw: Machine, opt: Options, s: State, u: State, t: State, r: Result<Proposal>, edges: seq<Edge>, ranked: seq<int>, now: nat)
    requires u == Numbered(s) && u.phase == Optimizing && r.Ok?
    requires var budget := Budget(|s.book.threads|, opt.ratio);
      && (budget == 0 ==> t == u && r.value == Proposal(s.nextId, u.phase, [], 0, true, false))
      && (budget > 0 ==> r.value.budget == budget && r.value.id == s.nextId && OptimizeResult(hw, opt, u, t, r.value, edges, ranked, now))
    ensures WindowDone(hw, opt, s, t, r, edges, ranked, now)
  {
    hide Budget, OptimizeResult;
  }
}
