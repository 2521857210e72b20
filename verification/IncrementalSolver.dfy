/** `IncrementalSolver` of src/solver.cpp as an object.  `S()` is its state as a value; every
method is proved against the transitions and the invariant of module SolverState. */
module IncrementalSolver {
  import opened Lists
  import opened Counting
  import opened Topology
  import opened Threads
  import opened NodePlanner
  import opened CpuPlanner
  import opened Pinning
  import opened Optimizer
  import opened SolverState
  import opened Admission
  import opened Windows

  class Solver {
    const hw: Machine
    const opt: Options
    var phase: Phase
    var generation: nat
    var nextId: nat
    var population: nat
    var replan: bool
    var confirmation: nat
    var book: Book
    var plan: Plan
    var place: Place
    var confirmations: map<Key, nat>
    var outstanding: Option<Proposal>
    ghost var history: History

    ghost function S(): State
      reads this
    {
      State(phase, generation, nextId, population, replan, confirmation, book, plan, place, confirmations, outstanding, history)
    }

    ghost predicate Valid()
      reads this
    {
      opt.Valid() && Inv(hw, opt, S())
    }

    constructor (hw: Machine, opt: Options)
      requires opt.Valid()
      ensures Valid() && this.hw == hw && this.opt == opt && S() == Initial()
    {
      this.hw, this.opt := hw, opt;
      phase, generation, nextId, population, replan, confirmation := Uninitialized, 0, 1, 0, false, 0;
      book, plan, place := Book(map[], map[], map[]), Plan(Targets(map[], map[]), map[], map[]), Place(map[], {}, map[]);
      confirmations, outstanding, history := map[], None, History(map[], [], [], 0);
      new;
      hide Inv;
      InitialInv(hw, opt);
    }

    /** Lines 496-523. */
    method Reset()
      requires opt.Valid()
      modifies this
      ensures Valid() && S() == Initial()
    {
      hide Inv;
      phase, generation, nextId, population, replan, confirmation := Uninitialized, 0, 1, 0, false, 0;
      book, plan, place := Book(map[], map[], map[]), Plan(Targets(map[], map[]), map[], map[]), Place(map[], {}, map[]);
      confirmations, outstanding, history := map[], None, History(map[], [], [], 0);
      InitialInv(hw, opt);
    }

    /** Lines 525-541. */
    method RemoveThread(tid: int)
      modifies this`book, this`plan, this`place, this`history
      ensures S() == Removed(old(S()), tid)
      ensures old(Valid()) ==> Valid()
    {
      hide Inv, Core, PhaseOk;
      ghost var before := S();
      book := Book(book.identities - {tid}, book.threads - {tid}, book.baseline - {tid});
      plan := Plan(Targets(plan.targets.cpu - {tid}, plan.targets.node - {tid}), plan.previous - {tid}, plan.candidates - {tid});
      place := Place(place.placement - {tid}, place.pinned - {tid}, place.lastMoved - {tid});
      history := history.(events := history.events + [Dropped(tid)]);
      if opt.Valid() && Inv(hw, opt, before) {
        InvParts(hw, opt, before);
        RemovedInv(hw, opt, before, tid);
        InvParts(hw, opt, Removed(before, tid));
      }
    }

    /** Lines 543-546. */
    method Effective() returns (r: bool)
      requires Valid()
      ensures r <==> phase == Optimizing && book.threads != map[] && place.pinned == book.threads.Keys
    {
      hide NodeMap, Plans, Slots, Pending, Moves, Streaks, Records, Targets.For;
      r := phase == Optimizing && book.threads != map[] && |place.pinned| == |book.threads|;
      if r {
        AllPinned(S());
      }
    }

    /** Lines 1586-1588. */
    method Discard(p: Proposal)
      modifies this`outstanding
      ensures S() == Discarded(old(S()), p)
      ensures old(Valid()) ==> Valid()
    {
      hide Inv;
      ghost var before := S();
      if outstanding.Some? && outstanding.value.id == p.id {
        outstanding := None;
      }
      if opt.Valid() && Inv(hw, opt, before) {
        DiscardedInv(hw, opt, before, p);
      }
    }

    /** Lines 1562-1569. */
    method CommitActions(actions: seq<Action>, committed: set<int>, now: nat)
      modifies this`place, this`history
      ensures S() == CommitMany(old(S()), actions, committed, now)
    {
      hide IsCommitted;
      for i := 0 to |actions|
        invariant S() == CommitMany(old(S()), actions[..i], committed, now)
      {
        var a := actions[i];
        assert actions[..i + 1][..i] == actions[..i] && actions[..i + 1][i] == a;
        if IsCommitted(committed, a) {
          var t := a.id.tid;
          var moved := if a.from != a.to then place.lastMoved[t := now] else place.lastMoved;
          history := history.(events := if a.from != a.to then history.events + [Moved(a.id, now)] else history.events);
          place := Place(place.placement[t := a.to], place.pinned + {t}, moved);
        }
      }
      assert actions[..|actions|] == actions;
    }

    /** Commits a proposal.  It does so for any caller; the invariant, and with it the slot
    cap, is promised to callers that follow the runtime's protocol. */
    method Commit(p: Proposal, now: nat, committed: set<int>)
      modifies this`place, this`phase, this`replan, this`generation, this`outstanding, this`history
      ensures S() == Committed(old(S()), p, now, committed)
      ensures old(Valid()) && old(Follows(S(), p, committed)) && old(history.clock) <= now ==> Valid()
    {
      hide Inv, Follows;
      ghost var before := S();
      if outstanding.None? || outstanding.value.id != p.id {
        StrayCommit(before, p, committed);
        return;
      }
      CommitActions(p.actions, committed, now);
      hide CommitMany;
      FinishPinning();
      hide TargetsEffective;
      generation, outstanding := generation + 1, None;
      history := history.(clock := now);
      if opt.Valid() && Inv(hw, opt, before) && Follows(before, p, committed) && before.history.clock <= now {
        CommittedInv(hw, opt, before, p, now, committed);
      }
    }

    /** Lines 1570-1580: pinning ends once the targets are effective. */
    method FinishPinning()
      modifies this`phase, this`replan
      ensures var done := old(phase) == InitialPinning && TargetsEffective(old(S()));
        S() == old(S()).(phase := if done then Optimizing else old(phase), replan := if done then false else old(replan))
    {
      if phase == InitialPinning {
        var effective := |place.pinned| == |book.threads|;
        if replan {
          effective := effective && forall t :: t in book.threads ==>
            t in plan.targets.cpu && t in place.placement && place.placement[t] == plan.targets.cpu[t];
        }
        assert effective <==> TargetsEffective(S());
        if effective {
          phase, replan := Optimizing, false;
        }
      }
    }

    // ----- bringing the records up to date (lines 607-730) -----

    lemma Fields()
      ensures S().book == book && S().outstanding == outstanding && S().place == place && S().history == history && S().phase == phase
      ensures Valid() ==> Inv(hw, opt, S())
    {
      hide Inv;
    }

    method DropStale(input: seq<Thread>)
      requires Core(hw, opt, S()) && PhaseOk(S()) && outstanding.None?
      modifies this`book, this`plan, this`place, this`history
      ensures Synced(hw, opt, old(S()), S(), input, 0, false) && Dropping(old(S()), S(), input, 0)
    {
      hide *;
      ghost var s0 := S();
      var live, tids := TidSet(input), Ascending(book.threads.Keys);
      AscendingDistinct(book.threads.Keys);
      StaleStart(s0, input);
      assert tids[..0] == [];
      Fields();
      CorePinned(hw, opt, s0);
      TrimStart(hw, opt, s0, input);
      for i := 0 to |tids|
        invariant Trimmed(hw, opt, s0, S(), input)
        invariant S().book == book && book.threads.Keys <= s0.book.threads.Keys
        invariant DroppingStale(s0, S(), input, tids[..i])
        invariant forall j :: 0 <= j < i ==> tids[j] !in book.threads || tids[j] in live
      {
        StaleStep(s0, S(), input, tids, i);
        if tids[i] !in live {
          TrimStep(hw, opt, s0, S(), input, tids[i]);
          RemovedThreads(S(), tids[i]);
          RemoveThread(tids[i]);
          Fields();
        }
      }
      forall t | t in book.threads
        ensures t in TidSet(input)
      {
        assert t in s0.book.threads.Keys;
      }
      TrimDone(hw, opt, s0, S(), input);
      assert tids[..|tids|] == tids;
      forall t
        ensures t in tids <==> t in s0.book.identities
      {
        assert t in s0.book.identities.Keys <==> t in s0.book.threads.Keys;
      }
      StaleEnds(s0, S(), input, tids);
    }

    /** Line 693-696 for one newcomer. */
    method Admit(th: Thread, seat: Option<Seat>)
      modifies this`book, this`plan
      ensures S() == Admitted(old(S()), th, seat)
    {
      var t := th.id.tid;
      book := Book(book.identities[t := th.id], book.threads[t := th], book.baseline[t := th.cpu]);
      if seat.Some? {
        plan := plan.(targets := Targets(plan.targets.cpu[t := seat.value.cpu], plan.targets.node[t := seat.value.node]));
      }
    }

    method AdmitAll(input: seq<Thread>, edges: seq<Edge>, slot: int, ghost s0: State) returns (arrivals: nat, added: bool)
      requires UniqueTids(input) && Synced(hw, opt, s0, S(), input, 0, false) && Dropping(s0, S(), input, 0)
      modifies this`book, this`plan, this`place, this`history
      ensures Synced(hw, opt, s0, S(), input, |input|, added)
      ensures arrivals == Newcomers(s0, input) && (added <==> arrivals > 0 && LatePhase(s0))
      ensures Seated(hw, opt, s0, plan.targets, input, Usable(edges, TidSet(input)), slot, |input|)
      ensures Dropping(s0, S(), input, |input|)
    {
      hide Dropping, Core, Synced, Known, Removed, Admitted, Vacated, LatePhase, Usable, TidSet, Newcomers, Seated, IsSeat;
      var hot := Usable(edges, TidSet(input));
      arrivals, added := 0, false;
      NoNewcomers(s0);
      assert input[..0] == [];
      SeatedNobody(hw, opt, s0, plan.targets, input, hot, slot);
      for i := 0 to |input|
        invariant Synced(hw, opt, s0, S(), input, i, added) && Seated(hw, opt, s0, plan.targets, input, hot, slot, i)
        invariant Dropping(s0, S(), input, i)
        invariant arrivals == Newcomers(s0, input[..i]) && (added <==> arrivals > 0 && LatePhase(s0))
      {
        var th := input[i];
        StillKnown(hw, opt, s0, S(), input, i, added);
        NewcomersStep(s0, input, i);
        var t := th.id.tid;
        ghost var s := S();
        KnownIs(s, th);
        if t in book.identities && book.identities[t] == th.id {
          RefreshStep(hw, opt, s0, s, input, i, added);
          SeatedKnown(hw, opt, s0, plan.targets, input, hot, slot, i);
          DropKnown(s0, s, input, i);
          book := book.(threads := book.threads[t := th]);
        } else {
          if t in book.identities {
            RemoveThread(t);
          }
          VacatedIs(s, t);
          var seat := None;
          if phase == InitialPinning || phase == Optimizing {
            var chosen := ChooseSeat(hw, opt, slot, |input|, book.threads, place.placement, plan.targets.cpu, hot, th);
            seat := Some(chosen);
          }
          LatePhaseIs(s);
          AdmitStep(hw, opt, s0, s, input, i, added, seat);
          Admit(th, seat);
          DropNew(s0, s, input, i, seat);
          SeatNext(s0, s, input, hot, slot, i, added, seat);
          arrivals, added := arrivals + 1, added || seat.Some?;
        }
      }
      assert input[..|input|] == input;
    }

    lemma SeatNext(s0: State, s: State, input: seq<Thread>, hot: seq<Edge>, slot: int, i: nat, added: bool, seat: Option<Seat>)
      requires i < |input| && UniqueTids(input) && Seated(hw, opt, s0, s.plan.targets, input, hot, slot, i)
      requires Synced(hw, opt, s0, s, input, i, added) && !Known(s, input[i]) && (LatePhase(s) <==> LatePhase(s0))
      requires S() == Admitted(Vacated(s, input[i].id.tid), input[i], seat) && (seat.Some? <==> LatePhase(s))
      requires var v := Vacated(s, input[i].id.tid);
        seat.Some? ==> IsSeat(hw, opt, slot, |input|, v.book.threads, v.place.placement, v.plan.targets.cpu, hot, input[i], seat.value)
      ensures Seated(hw, opt, s0, plan.targets, input, hot, slot, i + 1)
    {
      if seat.Some? {
        hide Synced, IsSeat, Admitted, Vacated, Seated;
        SeatedNew(hw, opt, s0, s, input, hot, slot, i, added, seat.value);
      } else {
        hide SeatedAt, Synced, IsSeat, Known;
      }
    }

    /** Lines 607-730. */
    method Sync(input: seq<Thread>, edges: seq<Edge>, slot: int)
      requires Inv(hw, opt, S()) && outstanding.None? && UniqueTids(input)
      modifies this`book, this`plan, this`place, this`history, this`phase, this`replan, this`confirmation
      ensures Inv(hw, opt, S())
      ensures SyncDone(hw, opt, old(S()), S(), input)
      ensures Seated(hw, opt, old(S()), plan.targets, input, Usable(edges, TidSet(input)), slot, |input|)
    {
      ghost var s0 := S();
      InvParts(hw, opt, s0);
      hide Inv, Core, PhaseOk, Synced, SyncDone, Admission.Settled, Arrived, Promoted, Seated, Dropping, DropsExactly, Leavers, GoneBy;
      DropStale(input);
      var arrivals, added := AdmitAll(input, edges, slot, s0);
      ghost var s1 := S();
      DroppedAll(hw, opt, s0, s1, input);
      SettledInv(hw, opt, s0, s1, input, arrivals, added);
      SyncDoneFrom(hw, opt, s0, s1, input, arrivals, added);
      NoteArrivals(arrivals, added);
      Promote();
      SettledTargets(opt, s1, arrivals, added);
      SettledIs(opt, s1, arrivals, added);
    }

    /** Lines 698-719. */
    method NoteArrivals(arrivals: nat, added: bool)
      modifies this`phase, this`replan, this`confirmation, this`plan, this`history
      ensures S() == Arrived(opt, old(S()), arrivals, added)
    {
      if added {
        if population > 0 && arrivals >= opt.growthMin
           && |book.threads| >= Ceil(population as real * (1.0 + opt.growthRatio)) {
          phase, replan, confirmation := NodePlanning, true, 0;
          plan := Plan(plan.targets, map[], map[]);
          history := history.(firstPlan := map[]);
        } else {
          phase := InitialPinning;
        }
      }
    }

    /** Lines 720-730. */
    method Promote()
      modifies this`phase
      ensures S() == Promoted(old(S()))
    {
      if phase == InitialPinning {
        var effective := |place.pinned| == |book.threads|;
        if replan {
          effective := effective && forall t :: t in book.threads ==>
            t in plan.targets.cpu && t in place.placement && place.placement[t] == plan.targets.cpu[t];
        }
        if effective {
          phase := Optimizing;
        }
      }
    }

    // ----- planning window (lines 806-1064) -----

    /** Keeps the earlier plan for an unchanged population, else adopts the new one. */
    method AdoptPlan(nodeAt: map<int, int>)
      modifies this`plan, this`confirmation, this`history
      ensures S() == Planned(old(S()), nodeAt) && history.clock == old(history.clock)
    {
      if plan.previous != map[] && plan.candidates == book.identities {
        confirmation := confirmation + 1;
      } else {
        confirmation := 1;
        plan := Plan(plan.targets, nodeAt, book.identities);
        history := history.(firstPlan := nodeAt);
      }
    }

    /** Lines 806-995. */
    method ComputePlan(edges: seq<Edge>) returns (r: Result<map<int, int>>, round: Round)
      requires opt.Valid()
      ensures round == RoundOf(hw, opt, book, edges) && round.Valid() && forall t :: t in round.tids <==> t in book.threads
      ensures r.Ok? ==> GoodPlan(hw, opt, S(), r.value) && Computed(hw, opt, book, edges, r.value)
      ensures r.Err? ==> exists at, n :: Stuck(round, at, n)
    {
      hide *;
      var slot, hot := SlotCap(hw, opt, |book.threads|), Usable(edges, book.threads.Keys);
      round := MakeRound(hw, opt.slack, slot, book.threads, book.baseline, hot);
      RoundParts(hw, opt, book, edges);
      Fields();
      r := PlanNodes(round, opt.passes);
      if r.Ok? {
        RoundPlan(hw, opt, S(), hot, r.value);
        ComputedIs(hw, opt, book, edges, r.value);
      }
    }

    /** Computes a plan and adopts or repeats one; a confirmed plan is turned into CPU targets. */
    method PlanWindow(id: nat, budget: nat, edges: seq<Edge>) returns (r: Result<Proposal>)
      requires opt.Valid() && Core(hw, opt, S()) && outstanding.None? && phase == NodePlanning && book.threads != map[]
      modifies this`plan, this`confirmation, this`history, this`population, this`phase
      ensures r.Ok? ==> r.value == Proposal(id, phase, [], budget, r.value.planConfirmed, false)
      ensures r.Ok? && r.value.planConfirmed ==> PlanPromise(hw, opt, |book.threads|, history.firstPlan, plan.targets)
      ensures r.Ok? ==> PlanResult(hw, opt, old(S()), edges, S(), r.value.planConfirmed)
      ensures r.Err? ==> S() == old(S()) && exists at, n :: Stuck(RoundOf(hw, opt, book, edges), at, n)
      ensures Inv(hw, opt, S()) && history.clock == old(history.clock)
    {
      hide Inv, Core, Stuck, RoundOf, Planned, PlanResult, PlanPromise, GoodPlan, Round.Valid, SubMap, Band, Roomy, Computed;
      ghost var s := S();
      PlanningInv(hw, opt, s);
      var result, round := ComputePlan(edges);
      if result.Err? {
        return Err(result.error);
      }
      PlannedCore(hw, opt, s, result.value);
      PlannedFacts(hw, opt, s, result.value);
      AdoptPlan(result.value);
      if confirmation < opt.planConfirmations {
        PlanningInv(hw, opt, S());
        PlanOpen(hw, opt, s, edges, result.value);
        return Ok(Proposal(id, phase, [], budget, false, false));
      }
      ClosePlan(round, edges, s, result.value);
      r := Ok(Proposal(id, phase, [], budget, true, false));
    }

    /** Lines 1025-1062. */
    method ClosePlan(round: Round, ghost edges: seq<Edge>, ghost s: State, ghost nodes: map<int, int>)
      requires S() == Planned(s, nodes) && GoodPlan(hw, opt, s, nodes) && Computed(hw, opt, s.book, edges, nodes) && s.book.threads != map[]
      requires Core(hw, opt, s) && Core(hw, opt, S()) && outstanding.None? && confirmation >= opt.planConfirmations
      requires round == RoundOf(hw, opt, book, edges) && round.Valid() && forall t :: t in round.tids <==> t in book.threads
      modifies this`plan, this`population, this`phase
      ensures Inv(hw, opt, S()) && PlanResult(hw, opt, s, edges, S(), true) && phase == InitialPinning
      ensures PlanPromise(hw, opt, |book.threads|, history.firstPlan, plan.targets)
    {
      hide Inv, Core, Planned, PlanResult, PlanPromise, GoodPlan, Round.Valid, SubMap, Band, Roomy, GoodCpus, RoomOnNodes;
      hide SlotsKept, SlotCap, CpuLists, Computed, BestSeats, RoundOf, CpuLatency;
      ghost var u := S();
      PlannedFacts(hw, opt, s, nodes);
      SlotCapPositive(hw, opt, |book.threads|);
      var cpu := SeatThreads(SlotCap(hw, opt, |book.threads|), round);
      PlanConfirmedInv(hw, opt, u, cpu);
      PlanClosed(hw, opt, s, edges, nodes, cpu);
      PromiseKept(hw, opt, u.plan.previous, u.history.firstPlan, cpu);
      plan := plan.(targets := Targets(cpu, plan.previous));
      population, phase := |book.threads|, InitialPinning;
    }

    /** Lines 1025-1058 for the plan under confirmation. */
    method SeatThreads(slot: int, round: Round) returns (cpu: map<int, int>)
      requires Core(hw, opt, S()) && plan.previous.Keys == book.threads.Keys && slot >= 1
      requires round.Valid() && forall t :: t in round.tids <==> t in book.threads
      ensures GoodCpus(hw, plan.previous, cpu)
      ensures SlotsKept(cpu, slot) <==> RoomOnNodes(CpuLists(hw), plan.previous, slot)
      ensures BestSeats(round, CpuLatency(hw), slot, CpuLists(hw), book.baseline, plan.previous, cpu)
    {
      var lists := CpuLists(hw);
      MachineLists(hw);
      PreviousOnNodes(hw, opt, S());
      hide Core, RoomOnNodes, SlotsKept, CpusIn, NodeSize, BestSeats, CpuLatency;
      forall t
        ensures t in plan.previous <==> t in round.tids
      {
        assert t in plan.previous.Keys <==> t in book.threads.Keys;
      }
      cpu := AssignCpus(round, CpuLatency(hw), slot, lists, book.baseline, plan.previous);
      hide CpuLists;
      CpusGood(hw, lists, plan.previous, cpu);
    }

    // ----- pinning window (lines 1067-1154) -----

    /** Lines 1071-1089: the first `budget` pending threads in the order of `PinOrder`. */
    method NextBatch(budget: nat) returns (batch: seq<int>)
      ensures Distinct(batch) && forall t :: t in batch ==> t in PendingOf(S())
      ensures |batch| == if |PendingOf(S())| < budget then |PendingOf(S())| else budget
      ensures FirstPending(S(), PinRank(hw, book, plan.targets.node), batch)
    {
      hide PendingSet, PinRank, SortedBy, LexLess;
      var pending := PendingSet(book.threads.Keys, place.pinned, replan, place.placement, plan.targets.cpu);
      batch := FirstBy(pending, PinRank(hw, book, plan.targets.node), budget);
    }

    method PinWindow(id: nat, budget: nat) returns (r: Result<Proposal>)
      requires opt.Valid() && Inv(hw, opt, S()) && outstanding.None? && phase == InitialPinning
      modifies this`plan, this`outstanding
      ensures Inv(hw, opt, S())
      ensures r.Ok? && budget == 0 ==> S() == old(S()) && r.value == Proposal(id, phase, [], 0, true, false)
      ensures r.Ok? && budget > 0 ==> r.value.budget == budget && r.value.id == id && PinResult(hw, opt, old(S()), S(), r.value)
      ensures r.Err? ==> !Roomy(hw, opt, |book.threads|)
      ensures r.Err? ==> outstanding.None? && S() == old(S()).(plan := old(plan).(targets := plan.targets))
    {
      hide Inv, PinResult, PendingOf, NodeMap, SlotCap, Roomy, NoNewOverflow, Staying, Projected, Targets.For, FirstPending, Repaired, PinRank;
      if budget == 0 {
        return Ok(Proposal(id, phase, [], 0, true, false));
      }
      ghost var s := S();
      var slot := SlotCap(hw, opt, |book.threads|);
      var batch := NextBatch(budget);
      var ok, targets := Repair(slot, batch);
      RetargetInv(hw, opt, s, targets);
      plan := plan.(targets := targets);
      if !ok {
        return Err("initial pinning has no slot-cap-feasible CPU");
      }
      var actions := PinActions(hw, book, place.placement, targets.cpu, batch);
      var p := Proposal(id, phase, actions, budget, true, actions != []);
      hide PinActions;
      if p.ready {
        FixedCap(hw, opt, |book.threads|, 0);
        PinBatchInv(hw, opt, s, slot, targets, batch, p);
        outstanding := Some(p);
      }
      PinDone(hw, opt, s, S(), p, batch);
      return Ok(p);
    }

    /** Lines 1096-1139. */
    method Repair(slot: int, batch: seq<int>) returns (ok: bool, targets: Targets)
      requires Inv(hw, opt, S()) && phase == InitialPinning && slot == SlotCap(hw, opt, |book.threads|)
      requires Distinct(batch) && forall t :: t in batch ==> t in PendingOf(S())
      ensures targets.For(NodeMap(hw), book.threads.Keys) && targets.cpu.Keys == plan.targets.cpu.Keys
      ensures book.threads.Keys <= plan.targets.cpu.Keys
      ensures forall i :: 0 <= i < |batch| ==> batch[i] in book.threads && batch[i] in book.identities
      ensures forall t :: t in plan.targets.cpu && t !in batch ==> targets.cpu[t] == plan.targets.cpu[t]
      ensures ok ==> NoNewOverflow(Staying(place.placement, book.threads.Keys, batch),
                                   Projected(place.placement, book.threads.Keys, batch, |batch|, targets.cpu), slot)
      ensures ok ==> Repaired(hw, opt, S(), targets, batch)
      ensures !ok ==> !Roomy(hw, opt, |book.threads|)
    {
      hide Inv, PendingOf, NodeMap, SlotCap, Roomy, NoNewOverflow, Staying, Projected, Deck.Valid, MakeDeck, Careful;
      SlotCapPositive(hw, opt, |book.threads|);
      var deck := MakeDeck(hw, slot, book.threads);
      DeckValid(hw, slot, book.threads);
      PinReady(hw, opt, S(), deck, slot, batch);
      DeckRoomy(hw, opt, slot, book.threads);
      assert |book.threads| == |book.threads.Keys|;
      ok, targets := RepairBatch(deck, place.placement, book.threads.Keys, batch, plan.targets);
    }

    // ----- optimizing window (lines 1156-1557) -----

    /** The potentials of one evaluation, and the batch accepted from them. */
    method Evaluate(budget: nat, edges: seq<Edge>, ranked: seq<int>, now: nat)
      returns (potentials: seq<Potential>, keys: set<Key>, next: map<Key, nat>, chosen: seq<Potential>, ghost scene: Scene, ghost y: Tables)
      requires Inv(hw, opt, S()) && phase == Optimizing && Distinct(ranked)
      ensures Evaluates(hw, opt, S(), edges, ranked, now, scene, potentials) && scene.Valid()
      ensures keys == KeysOf(potentials) && next == NextConfirmations(confirmations, keys)
      ensures chosen == Chosen(opt, S(), scene, potentials, budget)
      ensures BatchState(scene, next, opt.confirmations, budget, chosen, y)
    {
      ghost var s := S();
      hide Inv, Core, PhaseOk, MakeBoard, Board.Valid, Projects, BatchState, Usable, NextConfirmations, Cooling, KeyOf, Admissible;
      hide SlotCap, IsPotential, Greedy, PotentialKey, SortedBy, PlacedOf;
      var slot := SlotCap(hw, opt, |book.threads|);
      OptimizeReady(hw, opt, s, slot);
      var hot := Usable(edges, book.threads.Keys);
      var board := MakeBoard(hw, slot, book.threads);
      var x := BuildTables(board, place.placement);
      var sc := MakeScene(hw, opt, slot, book, place, hot, x, Cooling(place.lastMoved, opt.dwell, now));
      SceneValid(hw, opt, s, slot, hot, x, sc.cooling);
      var order := PlacedOnly(ranked, place.placement);
      hide Scene.Valid;
      var found := Candidates(sc, order);
      potentials := SortPotentials(found);
      PotentialsAdmissible(sc, order, potentials);
      keys := KeysOf(potentials);
      next := NextConfirmations(confirmations, keys);
      chosen, y := SelectBatch(sc, potentials, next, opt.confirmations, budget);
      scene := sc;
    }

    method OptimizeWindow(id: nat, budget: nat, edges: seq<Edge>, ranked: seq<int>, now: nat) returns (p: Proposal)
      requires opt.Valid() && Inv(hw, opt, S()) && outstanding.None? && phase == Optimizing && Distinct(ranked)
      modifies this`confirmations, this`outstanding, this`history
      ensures Inv(hw, opt, S()) && history.clock == old(history.clock)
      ensures budget == 0 ==> S() == old(S()) && p == Proposal(id, phase, [], 0, true, false)
      ensures budget > 0 ==> p.budget == budget && p.id == id && OptimizeResult(hw, opt, old(S()), S(), p, edges, ranked, now)
    {
      hide Inv, OptimizeResult, BatchState, NextConfirmations, Evaluates, Scene.Valid, Flatten, Chosen, KeysOf;
      if budget == 0 {
        return Proposal(id, phase, [], 0, true, false);
      }
      ghost var s := S();
      var potentials, keys, next, chosen, scene, y := Evaluate(budget, edges, ranked, now);
      var actions := Flatten(chosen);
      p := Proposal(id, phase, actions, budget, true, actions != []);
      EvaluatedInv(hw, opt, s, keys);
      OptimizeDone(hw, opt, s, p, edges, ranked, now, scene, potentials, y);
      confirmations := next;
      history := history.(evals := history.evals + [keys]);
      if p.ready {
        outstanding := Some(p);
      }
    }

    // ----- one call of propose (lines 548-1557) -----

    /** `edges` and `ranked`, the order in which threads are examined for improvement, are
    arbitrary.  An outstanding proposal is returned as it is. */
    method Propose(input: seq<Thread>, edges: seq<Edge>, ranked: seq<int>, now: nat) returns (r: Result<Proposal>)
      requires Valid() && UniqueTids(input) && Distinct(ranked) && history.clock <= now
      modifies this
      ensures Valid() && history.clock == old(history.clock)
      ensures old(outstanding).Some? ==> S() == old(S()) && r == Ok(old(outstanding).value)
      ensures old(outstanding).None? ==> Proposed(hw, opt, old(S()), S(), r, input, edges, ranked, now)
    {
      hide Inv, SyncDone, WindowDone, Core, Budget, SlotCap, PlanResult, PlanPromise, PinResult, OptimizeResult, Stuck, RoundOf;
      hide Roomy, UniqueTids, Distinct, Proposed, Seated, Usable, TidSet;
      if outstanding.Some? {
        return Ok(outstanding.value);
      }
      var slot := SlotCap(hw, opt, |input|);
      ghost var s0 := S();
      Sync(input, edges, slot);
      ghost var s := S();
      SyncClock(hw, opt, s0, s, input);
      var id := nextId;
      var budget := Budget(|book.threads|, if phase == InitialPinning then opt.initialRatio else opt.ratio);
      if book.threads == map[] {
        NumberedInv(hw, opt, s, Uninitialized);
        nextId, phase := nextId + 1, Uninitialized;
        r := Ok(Proposal(id, Uninitialized, [], budget, false, false));
        WindowIdle(hw, opt, s, S(), r, edges, ranked, now);
        ProposedVia(hw, opt, s0, s, S(), r, input, edges, ranked, now);
        return;
      }
      ghost var phase0 := if phase == Uninitialized then NodePlanning else phase;
      NumberedInv(hw, opt, s, phase0);
      nextId := nextId + 1;
      if phase == Uninitialized {
        phase := NodePlanning;
      }
      r := Solve(id, budget, edges, ranked, now, s);
      ProposedVia(hw, opt, s0, s, S(), r, input, edges, ranked, now);
    }

    /** Lines 806-1557: what the phase demands. */
    method Solve(id: nat, budget: nat, edges: seq<Edge>, ranked: seq<int>, now: nat, ghost s: State) returns (r: Result<Proposal>)
      requires Valid() && outstanding.None? && S() == Numbered(s) && book.threads != map[] && phase != Uninitialized
      requires id == s.nextId && Distinct(ranked) && history.clock <= now
      requires budget == Budget(|s.book.threads|, if s.phase == InitialPinning then opt.initialRatio else opt.ratio)
      modifies this
      ensures Valid() && history.clock == old(history.clock)
      ensures WindowDone(hw, opt, s, S(), r, edges, ranked, now)
    {
      hide Inv, WindowDone, Core, Budget, SlotCap, PlanResult, PlanPromise, PinResult, OptimizeResult, Stuck, RoundOf, Roomy, Distinct;
      ghost var u := S();
      NumberedCore(hw, opt, u);
      if phase == NodePlanning {
        r := PlanWindow(id, budget, edges);
        WindowPlanned(hw, opt, s, u, S(), r, edges, ranked, now);
      } else if phase == InitialPinning {
        r := PinWindow(id, budget);
        WindowPinned(hw, opt, s, u, S(), r, edges, ranked, now);
      } else {
        var p := OptimizeWindow(id, budget, edges, ranked, now);
        r := Ok(p);
        WindowOptimized(hw, opt, s, u, S(), r, edges, ranked, now);
      }
    }
  }

  /** A call of `propose`: first the records are brought up to date, then the phase acts. */
  ghost predicate Proposed(hw: Machine, opt: Options, s0: State, t: State, r: Result<Proposal>,
                           input: seq<Thread>, edges: seq<Edge>, ranked: seq<int>, now: nat)
  {
    exists s ::
      && Inv(hw, opt, s) && SyncDone(hw, opt, s0, s, input)
      && Seated(hw, opt, s0, s.plan.targets, input, Usable(edges, TidSet(input)), SlotCap(hw, opt, |input|), |input|)
      && WindowDone(hw, opt, s, t, r, edges, ranked, now)
  }

  lemma ProposedVia(hw: Machine, opt: Options, s0: State, s: State, t: State, r: Result<Proposal>,
                    input: seq<Thread>, edges: seq<Edge>, ranked: seq<int>, now: nat)
    requires Inv(hw, opt, s) && SyncDone(hw, opt, s0, s, input) && WindowDone(hw, opt, s, t, r, edges, ranked, now)
    requires Seated(hw, opt, s0, s.plan.targets, input, Usable(edges, TidSet(input)), SlotCap(hw, opt, |input|), |input|)
    ensures Proposed(hw, opt, s0, t, r, input, edges, ranked, now)
  {
    hide Inv, SyncDone, WindowDone, Seated, Usable, TidSet, SlotCap;
  }

  method PlacedOnly(ranked: seq<int>, placement: map<int, int>) returns (r: seq<int>)
    ensures r == PlacedOf(ranked, placement)
  {
    r := [];
    for i := 0 to |ranked|
      invariant r == PlacedOf(ranked[..i], placement)
    {
      assert ranked[..i + 1][..i] == ranked[..i];
      if ranked[i] in placement {
        r := r + [ranked[i]];
      }
    }
    assert ranked[..|ranked|] == ranked;
  }

  lemma PotentialsAdmissible(scene: Scene, order: seq<int>, potentials: seq<Potential>)
    requires forall p :: p in potentials ==> IsPotential(scene, order, p)
    ensures forall p :: p in potentials ==> Admissible(scene, p)
  {
    hide Admissible, Offered;
  }

  lemma InvParts(hw: Machine, opt: Options, s: State)
    ensures Inv(hw, opt, s) <==> Core(hw, opt, s) && PhaseOk(s)
  {
    hide Core, PhaseOk;
  }

  lemma StrayCommit(s: State, p: Proposal, committed: set<int>)
    requires s.outstanding.None? || s.outstanding.value.id != p.id
    ensures !Follows(s, p, committed)
  {
  }
}
