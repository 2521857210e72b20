/** Where the guarantees of the incremental solver end: three properties that do not hold as
they might be read, each with an input that shows it and with the condition under which it does. */
module SolverCaveats {
  import opened Lists
  import opened Counting
  import opened Topology
  import opened Threads
  import opened NodePlanner
  import opened CpuPlanner
  import opened Pinning
  import opened Optimizer
  import opened SolverState
  import opened Windows

  // ----- dwell is counted since the last admission -----

  /** A move that nothing has replaced or erased since. */
  ghost predicate Stands(events: seq<Event>, id: Identity, i: int) {
    && 0 <= i < |events| && events[i].Moved? && events[i].id == id
    && (forall j :: i < j < |events| ==> events[j] != Dropped(id.tid) && !(events[j].Moved? && events[j].id == id))
  }

  /** The move on record is the last one since the thread was last dropped. */
  lemma {:induction false} LastMoveMeans(events: seq<Event>, id: Identity, time: nat)
    ensures LastMove(events, id) == Some(time) <==> exists i :: Stands(events, id, i) && events[i].time == time
  {
    if events != [] {
      var n := |events| - 1;
      var e, rest := events[n], events[..n];
      LastMoveMeans(rest, id, time);
      if e.Moved? && e.id == id {
        assert Stands(events, id, n);
      } else if e != Dropped(id.tid) && LastMove(rest, id) == Some(time) {
        var i :| Stands(rest, id, i) && rest[i].time == time;
        assert Stands(events, id, i);
      }
      if exists i :: Stands(events, id, i) && events[i].time == time {
        var i :| Stands(events, id, i) && events[i].time == time;
        if i < n {
          assert Stands(rest, id, i);
        }
      }
    }
  }

  /** A thread that is cooling down when it is dropped and admitted again, under the same identity,
  cools no longer. */
  lemma DwellForgets(s: State, th: Thread, seat: Option<Seat>, dwell: nat, now: nat)
    requires RecordsOk(s) && MovesOk(s) && th.id.tid in s.book.identities && s.book.identities[th.id.tid] == th.id
    requires th.id.tid in Cooling(s.place.lastMoved, dwell, now)
    ensures !Rested(s.history.events, th.id, dwell, now)
    ensures var r := Admitted(Removed(s, th.id.tid), th, seat);
      && r.book.identities == s.book.identities
      && th.id.tid !in Cooling(r.place.lastMoved, dwell, now) && Rested(r.history.events, th.id, dwell, now)
  {
    var r := Admitted(Removed(s, th.id.tid), th, seat);
    assert r.book.identities == s.book.identities;
    LastMoveDropped(s.history.events, th.id.tid, th.id);
    hide LastMove;
    assert LastMove(s.history.events, s.book.identities[th.id.tid]) == Lookup(s.place.lastMoved, th.id.tid);
  }

  /** When the thread last changed CPU, whether or not it was dropped since. */
  function LastMoveEver(events: seq<Event>, id: Identity): Option<nat> {
    if events == [] then None
    else
      var e := events[|events| - 1];
      if e.Moved? && e.id == id then Some(e.time) else LastMoveEver(events[..|events| - 1], id)
  }

  /** The thread was dropped at some time after which it did not move. */
  ghost predicate DroppedSince(events: seq<Event>, id: Identity) {
    exists j :: DropStands(events, id, j)
  }

  ghost predicate DropStands(events: seq<Event>, id: Identity, j: int) {
    && 0 <= j < |events| && events[j] == Dropped(id.tid)
    && (forall k :: j < k < |events| ==> !(events[k].Moved? && events[k].id == id))
  }

  lemma {:induction false} LastMoveUnlessDropped(events: seq<Event>, id: Identity)
    ensures LastMove(events, id) == if DroppedSince(events, id) then None else LastMoveEver(events, id)
  {
    if events != [] {
      var n := |events| - 1;
      var e, rest := events[n], events[..n];
      LastMoveUnlessDropped(rest, id);
      if e == Dropped(id.tid) {
        assert DropStands(events, id, n);
      } else if DroppedSince(rest, id) {
        var j :| DropStands(rest, id, j);
        assert !(e.Moved? && e.id == id) ==> DropStands(events, id, j);
      }
      if DroppedSince(events, id) && e != Dropped(id.tid) {
        var j :| DropStands(events, id, j);
        assert DropStands(rest, id, j);
      }
    }
  }

  /** The solver takes a thread for rested exactly if a dwell has passed since its last move, or it
  was dropped after that move. */
  lemma RestedUnlessDropped(events: seq<Event>, id: Identity, dwell: nat, now: nat)
    ensures var last := LastMoveEver(events, id);
      Rested(events, id, dwell, now) <==> (last.Some? ==> now - last.value >= dwell) || DroppedSince(events, id)
  {
    hide LastMove, LastMoveEver, DroppedSince;
    LastMoveUnlessDropped(events, id);
  }

  /** It is rested exactly if each of its moves that no drop and no later move has superseded is
  at least a dwell old; so for a thread never dropped since its last move the dwell holds. */
  lemma RestedExactly(events: seq<Event>, id: Identity, dwell: nat, now: nat)
    ensures Rested(events, id, dwell, now) <==> forall i :: Stands(events, id, i) ==> now - events[i].time >= dwell
  {
    var last := LastMove(events, id);
    if last.Some? {
      LastMoveMeans(events, id, last.value);
    }
    forall i | Stands(events, id, i)
      ensures last == Some(events[i].time)
    {
      LastMoveMeans(events, id, events[i].time);
    }
    hide LastMove;
  }

  // ----- committing a part of a batch -----

  /** The committed actions of a batch. */
  function Part(actions: seq<Action>, committed: set<int>): (r: seq<Action>)
    ensures forall a :: a in r <==> a in actions && IsCommitted(committed, a)
  {
    if actions == [] then []
    else
      var n := |actions| - 1;
      var rest, a := Part(actions[..n], committed), actions[n];
      assert actions == actions[..n] + [a];
      if IsCommitted(committed, a) then rest + [a] else rest
  }

  lemma {:induction false} CommitManyPart(s: State, actions: seq<Action>, committed: set<int>, now: nat)
    ensures CommitMany(s, actions, committed, now).place.placement == After(s.place.placement, Part(actions, committed))
  {
    hide After;
    if actions == [] {
      AfterNothing(s.place.placement);
    } else {
      var n := |actions| - 1;
      CommitManyPart(s, actions[..n], committed, now);
      AfterOne(s.place.placement, Part(actions[..n], committed), actions[n]);
    }
  }

  lemma AfterNothing(at: map<int, int>)
    ensures After(at, []) == at
  {
  }

  /** Whatever set is committed, the placement follows the committed actions. */
  lemma CommittedPart(s: State, p: Proposal, now: nat, committed: set<int>)
    requires s.outstanding == Some(p)
    ensures Committed(s, p, now, committed).place.placement == After(s.place.placement, Part(p.actions, committed))
  {
    CommitManyPart(s, p.actions, committed, now);
    hide CommitMany, TargetsEffective, After, Part;
  }

  lemma {:induction false} PartUnique(actions: seq<Action>, committed: set<int>)
    requires forall i, j :: 0 <= i < j < |actions| ==> actions[i].id.tid != actions[j].id.tid
    ensures forall i, j :: 0 <= i < j < |Part(actions, committed)| ==>
      Part(actions, committed)[i].id.tid != Part(actions, committed)[j].id.tid
  {
    if actions != [] {
      var n := |actions| - 1;
      var rest := Part(actions[..n], committed);
      PartUnique(actions[..n], committed);
      forall i | 0 <= i < |rest|
        ensures rest[i].id.tid != actions[n].id.tid
      {
        var a := rest[i];
        assert a in rest;
        var k :| 0 <= k < n && actions[..n][k] == a;
        assert actions[k].id.tid != actions[n].id.tid;
      }
      hide IsCommitted;
    }
  }

  lemma PartStep(rest: seq<Action>, a: Action, committed: set<int>)
    ensures Part(rest + [a], committed) == if IsCommitted(committed, a) then Part(rest, committed) + [a] else Part(rest, committed)
  {
    assert (rest + [a])[..|rest|] == rest;
    hide IsCommitted;
  }

  /** How many threads a batch sends to a CPU, less how many it takes from there. */
  function Change(at: map<int, int>, actions: seq<Action>, c: int): int {
    if actions == [] then 0
    else
      var a := actions[|actions| - 1];
      Change(at, actions[..|actions| - 1], c)
      + (if a.to == c then 1 else 0) - (if a.id.tid in at && at[a.id.tid] == c then 1 else 0)
  }

  lemma {:induction false} CountAfter(at: map<int, int>, actions: seq<Action>, c: int)
    requires forall i, j :: 0 <= i < j < |actions| ==> actions[i].id.tid != actions[j].id.tid
    ensures Count(After(at, actions), c) == Count(at, c) + Change(at, actions, c)
  {
    if actions != [] {
      var n := |actions| - 1;
      var rest, a := actions[..n], actions[n];
      CountAfter(at, rest, c);
      assert actions == rest + [a];
      AfterOne(at, rest, a);
      CountSet(After(at, rest), a.id.tid, a.to, c);
      AfterElsewhere(at, rest, a.id.tid);
    }
  }

  /** A commit of any part of a batch keeps the slot cap exactly if the part sends to no CPU more
  threads than the CPU has room for after those that the part takes away. */
  lemma PartialCommitExactly(s: State, p: Proposal, now: nat, committed: set<int>, slot: int)
    requires s.outstanding == Some(p)
    requires forall i, j :: 0 <= i < j < |p.actions| ==> p.actions[i].id.tid != p.actions[j].id.tid
    ensures SlotsKept(Committed(s, p, now, committed).place.placement, slot) <==>
      forall c :: Count(s.place.placement, c) + Change(s.place.placement, Part(p.actions, committed), c) <= slot
  {
    hide After, Count, Change, Committed;
    var at, part := s.place.placement, Part(p.actions, committed);
    CommittedPart(s, p, now, committed);
    PartUnique(p.actions, committed);
    forall c
      ensures Count(After(at, part), c) == Count(at, c) + Change(at, part, c)
    {
      CountAfter(at, part, c);
    }
  }

  /** The batch exchanges the CPUs of two placed threads. */
  predicate IsSwap(at: map<int, int>, actions: seq<Action>) {
    && |actions| == 2 && actions[0].id.tid != actions[1].id.tid
    && actions[0].id.tid in at && actions[1].id.tid in at && at[actions[0].id.tid] != at[actions[1].id.tid]
    && actions[0].to == at[actions[1].id.tid] && actions[1].to == at[actions[0].id.tid]
  }

  lemma SwapParts(a: Action, b: Action)
    requires a.id.tid != b.id.tid
    ensures Part([a, b], {}) == [a, b] && Part([a, b], {a.id.tid}) == [a]
  {
    assert [a, b] == [a] + [b] && [a] == [] + [a];
    var half := {a.id.tid};
    assert Part([], {}) == [] && Part([], half) == [];
    hide Part;
    PartStep([], a, {});
    PartStep([a], b, {});
    PartStep([], a, half);
    PartStep([a], b, half);
  }

  lemma SwapChange(at: map<int, int>, a: Action, b: Action, c: int)
    requires IsSwap(at, [a, b])
    ensures Change(at, [a, b], c) == 0
    ensures Change(at, [a], c) == (if a.to == c then 1 else 0) - (if at[a.id.tid] == c then 1 else 0)
  {
    assert [a, b] == [a] + [b] && [a] == [] + [a];
    ChangeStep(at, [], a, c);
    ChangeStep(at, [a], b, c);
  }

  lemma ChangeStep(at: map<int, int>, rest: seq<Action>, a: Action, c: int)
    ensures Change(at, rest + [a], c) ==
      Change(at, rest, c) + (if a.to == c then 1 else 0) - (if a.id.tid in at && at[a.id.tid] == c then 1 else 0)
  {
    assert (rest + [a])[..|rest|] == rest;
  }

  /** A whole swap keeps the slot cap.  Committing one half of it while the other thread stays managed
  is not what the protocol does, and keeps the cap exactly if the CPU has a free slot. */
  lemma HalfASwap(s: State, p: Proposal, now: nat, slot: int)
    requires s.outstanding == Some(p) && IsSwap(s.place.placement, p.actions) && SlotsKept(s.place.placement, slot)
    requires p.actions[1].id.tid in s.book.threads
    ensures SlotsKept(Committed(s, p, now, {}).place.placement, slot)
    ensures !Follows(s, p, {p.actions[0].id.tid})
    ensures SlotsKept(Committed(s, p, now, {p.actions[0].id.tid}).place.placement, slot) <==>
      Count(s.place.placement, p.actions[0].to) < slot
  {
    hide Committed, Change, Part, Count;
    var at, a, b := s.place.placement, p.actions[0], p.actions[1];
    assert p.actions == [a, b];
    assert b in p.actions && !IsCommitted({a.id.tid}, b);
    SwapParts(a, b);
    PartialCommitExactly(s, p, now, {}, slot);
    PartialCommitExactly(s, p, now, {a.id.tid}, slot);
    forall c
      ensures Change(at, [a, b], c) == 0
      ensures Change(at, [a], c) == (if a.to == c then 1 else 0) - (if at[a.id.tid] == c then 1 else 0)
    {
      SwapChange(at, a, b, c);
    }
  }

  // ----- a plan that outlives its threads -----

  /** What a plan had for the threads that were dropped since. */
  function Lost(first: map<int, int>, rest: map<int, int>): map<int, int> {
    map t | t in first && t !in rest :: first[t]
  }

  lemma CountLost(first: map<int, int>, rest: map<int, int>, n: int)
    requires SubMap(rest, first)
    ensures Count(rest, n) == Count(first, n) - Count(Lost(first, rest), n)
  {
    var a, b, c := Members(first, n), Members(rest, n), Members(Lost(first, rest), n);
    forall t
      ensures t in a <==> t in b + c
    {
      if t in rest {
        assert t in first && rest[t] == first[t];
      }
    }
    assert a == b + c && b !! c;
  }

  /** Every node lost the threads of a plan for which it has no slots. */
  ghost predicate LostEnough(hw: Machine, first: map<int, int>, lost: map<int, int>, slot: int) {
    forall n :: n in Nodes(hw) ==> Count(lost, n) >= Count(first, n) - slot * NodeSize(hw, n)
  }

  /** Every node lost neither too many nor too few threads of a plan for the band of `m` threads. */
  ghost predicate LostInBand(hw: Machine, opt: Options, first: map<int, int>, lost: map<int, int>, m: nat) {
    forall n :: n in Nodes(hw) ==>
      && Count(lost, n) <= Count(first, n) - Get(FloorTable(hw, m, opt.slack), n)
      && Count(lost, n) >= Count(first, n) - Get(CapTable(hw, m, opt.slack, SlotCap(hw, opt, m)), n)
  }

  /** The slots of each node suffice for what is left of a plan exactly if it lost enough threads. */
  lemma RoomExactly(hw: Machine, first: map<int, int>, rest: map<int, int>, slot: int)
    requires SubMap(rest, first)
    ensures RoomOnNodes(CpuLists(hw), rest, slot) <==> LostEnough(hw, first, Lost(first, rest), slot)
  {
    MachineLists(hw);
    hide Count, NodeSize, CpusIn, Lost, GoodLists, NodeMap;
    forall n
      ensures Count(rest, n) == Count(first, n) - Count(Lost(first, rest), n)
    {
      CountLost(first, rest, n);
    }
    forall n
      ensures n in CpuLists(hw) <==> n in Nodes(hw)
    {
      hide Nodes;
    }
    hide CpuLists, Nodes;
    if LostEnough(hw, first, Lost(first, rest), slot) {
      forall n | n in CpuLists(hw)
        ensures Count(rest, n) <= slot * |CpuLists(hw)[n]|
      {
        assert n in Nodes(hw);
      }
    }
    if RoomOnNodes(CpuLists(hw), rest, slot) {
      forall n | n in Nodes(hw)
        ensures Count(Lost(first, rest), n) >= Count(first, n) - slot * NodeSize(hw, n)
      {
        assert n in CpuLists(hw);
      }
    }
  }

  lemma BandExactly(hw: Machine, opt: Options, first: map<int, int>, rest: map<int, int>, m: nat)
    requires SubMap(rest, first)
    ensures Band(hw, opt, m, rest) <==> LostInBand(hw, opt, first, Lost(first, rest), m)
  {
    hide Nodes, Count, FloorTable, CapTable, SlotCap, Lost;
    forall n
      ensures Count(rest, n) == Count(first, n) - Count(Lost(first, rest), n)
    {
      CountLost(first, rest, n);
    }
  }

  /** The stored plan is for exactly the threads that are managed now, so a window repeats it. */
  predicate Reuses(s: State) {
    s.plan.previous != map[] && s.plan.candidates == s.book.identities
  }

  /** A window that confirms a stored plan: the plan keeps the slot cap of the present population
  exactly if every node lost enough threads since the plan was made, and the band exactly if every
  node lost neither too many nor too few. */
  lemma ReusedPlanExactly(hw: Machine, opt: Options, s: State, edges: seq<Edge>, t: State)
    requires Core(hw, opt, s) && Reuses(s) && PlanResult(hw, opt, s, edges, t, true)
    requires PlanPromise(hw, opt, |t.book.threads|, t.history.firstPlan, t.plan.targets)
    ensures var m, first, lost := |s.book.threads|, s.history.firstPlan, Lost(s.history.firstPlan, s.plan.previous);
      && t.plan.targets.node == s.plan.previous && |t.book.threads| == m
      && (SlotsKept(t.plan.targets.cpu, SlotCap(hw, opt, m)) <==>
            LostEnough(hw, first, lost, SlotCap(hw, opt, m)))
      && (Band(hw, opt, m, t.plan.targets.node) <==> LostInBand(hw, opt, first, lost, m))
  {
    hide *;
    StoredPlan(hw, opt, s);
    ReusedFields(hw, opt, s, edges, t);
    PromiseRoom(hw, opt, |t.book.threads|, t.history.firstPlan, t.plan.targets);
    RoomExactly(hw, s.history.firstPlan, s.plan.previous, SlotCap(hw, opt, |s.book.threads|));
    BandExactly(hw, opt, s.history.firstPlan, s.plan.previous, |s.book.threads|);
  }

  lemma StoredPlan(hw: Machine, opt: Options, s: State)
    requires Core(hw, opt, s)
    ensures SubMap(s.plan.previous, s.history.firstPlan)
  {
    hide Records, Placed, Moves, Streaks, Slots, Pending, NodeMap, Targets.For, Nodes, Band, Roomy, SubMap;
  }

  lemma ReusedFields(hw: Machine, opt: Options, s: State, edges: seq<Edge>, t: State)
    requires Reuses(s) && PlanResult(hw, opt, s, edges, t, true)
    ensures t.plan.targets.node == s.plan.previous && t.book == s.book
  {
    hide GoodPlan, GoodCpus, PlanResult, Computed;
    var plan := PlanResultPlan(hw, opt, s, edges, t, true);
  }

  lemma PromiseRoom(hw: Machine, opt: Options, m: nat, first: map<int, int>, targets: Targets)
    requires PlanPromise(hw, opt, m, first, targets)
    ensures SlotsKept(targets.cpu, SlotCap(hw, opt, m)) <==> RoomOnNodes(CpuLists(hw), targets.node, SlotCap(hw, opt, m))
  {
    hide SlotsKept, RoomOnNodes, Band, Roomy, SlotCap, CpuLists;
  }

  /** A window that confirms the plan it has just made keeps the slot cap exactly if there are slots
  for all threads, and then also the band. */
  lemma FreshPlanExactly(hw: Machine, opt: Options, s: State, edges: seq<Edge>, t: State)
    requires !Reuses(s) && PlanResult(hw, opt, s, edges, t, true)
    requires PlanPromise(hw, opt, |t.book.threads|, t.history.firstPlan, t.plan.targets)
    ensures var m := |s.book.threads|;
      && (SlotsKept(t.plan.targets.cpu, SlotCap(hw, opt, m)) <==> Roomy(hw, opt, m))
      && (Roomy(hw, opt, m) ==> Band(hw, opt, m, t.plan.targets.node))
  {
    hide SlotsKept, RoomOnNodes, Band, SlotCap, CpuLists, NodeMap, Nodes, PlanResult, Computed;
    var plan := PlanResultPlan(hw, opt, s, edges, t, true);
    var m, cpu := |s.book.threads|, t.plan.targets.cpu;
    assert t.history.firstPlan == plan && t.plan.targets.node == plan && cpu.Keys == s.book.threads.Keys;
    assert |plan| == |plan.Keys| && m == |s.book.threads.Keys| && |cpu| == |cpu.Keys|;
    if SlotsKept(cpu, SlotCap(hw, opt, m)) {
      SlotCapPositive(hw, opt, m);
      TooManyThreads(hw, SlotCap(hw, opt, m), cpu);
    }
  }

  /** Two nodes of one CPU each. */
  function TwoNodes(): Machine {
    var h := Hardware([Cpu(0, 0), Cpu(1, 1)], map[], map[]);
    assert h.cpus[0] == Cpu(0, 0);
    h
  }

  lemma TwoNodeList()
    ensures forall n :: n in Nodes(TwoNodes()) <==> n == 0 || n == 1
  {
    var hw := TwoNodes();
    assert hw.cpus[0] == Cpu(0, 0) && hw.cpus[1] == Cpu(1, 1);
    var nodes := set c | c in hw.cpus :: c.node;
    assert hw.cpus[0].node in nodes && hw.cpus[1].node in nodes;
    hide Ascending;
  }

  lemma TwoNodeMap()
    ensures NodeMap(TwoNodes()) == map[0 := 0, 1 := 1]
  {
    var hw := TwoNodes();
    var at := NodeMap(hw);
    hide NodeMap;
    assert hw.cpus[0] == Cpu(0, 0) && hw.cpus[1] == Cpu(1, 1);
    assert Cpu(0, 0) in hw.cpus && Cpu(1, 1) in hw.cpus;
    forall k
      ensures k in at <==> k == 0 || k == 1
    {
      if k in at {
        assert Cpu(k, at[k]) in hw.cpus;
      }
    }
  }

  lemma TwoNodeSizes()
    ensures NodeSize(TwoNodes(), 0) == 1 && NodeSize(TwoNodes(), 1) == 1 && |TwoNodes().cpus| == 2
  {
    TwoNodeMap();
    hide NodeMap;
    var at := map[0 := 0, 1 := 1];
    assert Members(at, 0) == {0} && Members(at, 1) == {1};
  }

  /** Slot caps, caps and floors of that machine without slack, for four threads and for two.  The
  slot cap is two, or follows the population. */
  lemma TwoNodeTables(opt: Options, n: int)
    requires opt.slack == 0.0 && (opt.maxPerCpu == 2 || (opt.maxPerCpu == 0 && opt.slotSlack == 0)) && (n == 0 || n == 1)
    ensures var hw := TwoNodes();
      && Get(CapTable(hw, 4, opt.slack, SlotCap(hw, opt, 4)), n) == 2 && Get(FloorTable(hw, 4, opt.slack), n) == 2
      && Get(CapTable(hw, 2, opt.slack, SlotCap(hw, opt, 2)), n) == 1
      && (opt.maxPerCpu == 0 ==> SlotCap(hw, opt, 2) == 1)
  {
    hide CapOf, FloorOf, Nodes, NodeSize, TwoNodes, SlotCap;
    TwoNodeList();
    TwoNodeSizes();
    TwoNodeSlots(opt);
    SmallBands();
  }

  lemma TwoNodeSlots(opt: Options)
    requires opt.maxPerCpu == 2 || (opt.maxPerCpu == 0 && opt.slotSlack == 0)
    ensures var hw := TwoNodes(); SlotCap(hw, opt, 4) == 2 && SlotCap(hw, opt, 2) == if opt.maxPerCpu == 2 then 2 else 1
  {
    hide TwoNodes;
    TwoNodeSizes();
    assert 4.0 / 2.0 == 2.0 && 2.0 / 2.0 == 1.0;
  }

  lemma SmallBands()
    ensures CapOf(4, 1, 2, 0.0, 2) == 2 && FloorOf(4, 1, 2, 0.0) == 2 && CapOf(2, 1, 2, 0.0, 2) == 1 && CapOf(2, 1, 2, 0.0, 1) == 1
  {
    assert Share(4, 1, 2) == 2.0 && Share(2, 1, 2) == 1.0;
  }

  function FourOnTwo(): map<int, int> {
    map[1 := 0, 2 := 0, 3 := 1, 4 := 1]
  }

  /** A state before its first plan, with four managed threads. */
  predicate FourThreads(s: State) {
    && s.plan.previous == map[] && s.outstanding.None? && s.confirmation == 0
    && s.book.threads.Keys == {1, 2, 3, 4} && s.book.identities.Keys == {1, 2, 3, 4}
  }

  lemma PlanCounts()
    ensures var first, rest := FourOnTwo(), map[1 := 0, 2 := 0];
      && |first| == 4 && |rest| == 2 && first.Keys == {1, 2, 3, 4} && first - {3} - {4} == rest
      && Count(first, 0) == 2 && Count(first, 1) == 2 && Count(rest, 0) == 2
  {
    var first, rest := FourOnTwo(), map[1 := 0, 2 := 0];
    assert first.Keys == {1, 2, 3, 4} && rest.Keys == {1, 2};
    assert |first| == |first.Keys| && |rest| == |rest.Keys|;
    assert Members(first, 0) == {1, 2} && Members(first, 1) == {3, 4} && Members(rest, 0) == {1, 2};
  }

  lemma FourIsGood(opt: Options, s: State)
    requires opt.slack == 0.0 && (opt.maxPerCpu == 2 || (opt.maxPerCpu == 0 && opt.slotSlack == 0)) && FourThreads(s)
    ensures GoodPlan(TwoNodes(), opt, s, FourOnTwo())
  {
    hide CapTable, FloorTable, SlotCap, Nodes, Count, TwoNodes, Roomy;
    TwoNodeList();
    PlanCounts();
    TwoNodeTables(opt, 0);
    TwoNodeTables(opt, 1);
  }

  lemma FirstOfFour(s: State)
    requires FourThreads(s)
    ensures var first := Planned(s, FourOnTwo());
      && first.plan.previous == FourOnTwo() && first.plan.candidates == s.book.identities && first.book == s.book && first.confirmation == 1
  {
    hide FourOnTwo;
  }

  lemma RemovedTwice(s: State, a: int, b: int)
    ensures var r := Removed(Removed(s, a), b);
      && r.plan.previous == s.plan.previous - {a} - {b} && r.plan.candidates == s.plan.candidates - {a} - {b}
      && r.book.identities == s.book.identities - {a} - {b} && r.book.threads == s.book.threads - {a} - {b}
      && r.confirmation == s.confirmation
  {
  }

  /** The plan of four threads after two of them were dropped: the next window keeps it. */
  lemma TwoLeft(s: State, plan: map<int, int>)
    requires FourThreads(s)
    ensures var left := Removed(Removed(Planned(s, FourOnTwo()), 3), 4);
      && Reuses(left) && left.plan.previous == map[1 := 0, 2 := 0] && |left.book.threads| == 2 && left.confirmation == 1
  {
    PlanCounts();
    FirstOfFour(s);
    RemovedTwice(Planned(s, FourOnTwo()), 3, 4);
    TwoOfFour(s.book.threads);
    SomethingLeft();
    hide Planned, FourOnTwo, Removed, Count;
  }

  lemma TwoOfFour(m: map<int, Thread>)
    requires m.Keys == {1, 2, 3, 4}
    ensures |m - {3} - {4}| == 2
  {
    var rest := m - {3} - {4};
    assert rest.Keys == {1, 2};
    assert |rest| == |rest.Keys|;
  }

  lemma SomethingLeft()
    ensures map[1 := 0, 2 := 0] != map[]
  {
    assert 1 in map[1 := 0, 2 := 0];
  }

  lemma KeptPlan(s: State, plan: map<int, int>)
    requires Reuses(s)
    ensures Planned(s, plan) == s.(confirmation := s.confirmation + 1)
  {
  }

  lemma TwoOnOne(opt: Options)
    requires opt.slack == 0.0 && (opt.maxPerCpu == 2 || (opt.maxPerCpu == 0 && opt.slotSlack == 0))
    ensures var hw, rest := TwoNodes(), map[1 := 0, 2 := 0];
      !Band(hw, opt, 2, rest) && (opt.maxPerCpu == 0 ==> !SlotsKept(rest, SlotCap(hw, opt, 2)))
  {
    hide CapTable, FloorTable, SlotCap, Nodes, Count, TwoNodes;
    TwoNodeList();
    PlanCounts();
    TwoNodeTables(opt, 0);
  }

  /** A good plan for four threads, kept and confirmed after the two of one node were dropped: both
  remaining threads are on the one CPU of the other node, whose cap for two threads is one.  With
  the slot cap that follows the population, that CPU is over it as well. */
  lemma ReusedPlanFails(opt: Options, s: State, plan: map<int, int>)
    requires opt.slack == 0.0 && (opt.maxPerCpu == 2 || (opt.maxPerCpu == 0 && opt.slotSlack == 0))
    requires opt.planConfirmations == 2 && FourThreads(s)
    ensures var hw := TwoNodes(); var first := Planned(s, FourOnTwo());
      var again := Planned(Removed(Removed(first, 3), 4), plan); var t := PlanConfirmed(again, map[1 := 0, 2 := 0]);
      && GoodPlan(hw, opt, s, FourOnTwo()) && PlanStep(hw, opt, first, first, false) && PlanStep(hw, opt, again, t, true)
      && !Band(hw, opt, |t.book.threads|, t.plan.targets.node)
      && (opt.maxPerCpu == 0 ==> !SlotsKept(t.plan.targets.cpu, SlotCap(hw, opt, |t.book.threads|)))
  {
    hide *;
    FourIsGood(opt, s);
    FirstOfFour(s);
    TwoLeft(s, plan);
    TwoOnOne(opt);
    var first := Planned(s, FourOnTwo());
    var left := Removed(Removed(first, 3), 4);
    KeptPlan(left, plan);
    FirstStep(opt, first);
    SecondStep(opt, left.(confirmation := left.confirmation + 1));
  }

  lemma FirstStep(opt: Options, first: State)
    requires first.confirmation == 1 && opt.planConfirmations == 2
    ensures PlanStep(TwoNodes(), opt, first, first, false)
  {
    hide TwoNodes;
  }

  lemma SecondStep(opt: Options, again: State)
    requires again.confirmation == 2 && opt.planConfirmations == 2 && again.plan.previous == map[1 := 0, 2 := 0]
    ensures var t := PlanConfirmed(again, map[1 := 0, 2 := 0]);
      && PlanStep(TwoNodes(), opt, again, t, true) && t.book == again.book
      && t.plan.targets.node == again.plan.previous && t.plan.targets.cpu == map[1 := 0, 2 := 0]
  {
    TwoNodeMap();
    hide TwoNodes, NodeMap;
  }
}
