/** The state machine of `IncrementalSolver` (include/affinitygraph/core.hpp:614-641) on
values: the state, its invariant, and the transitions that do not plan anything. */
module SolverState {
  import opened Lists
  import opened Counting
  import opened Topology
  import opened Threads
  import opened NodePlanner
  import opened CpuPlanner
  import opened Pinning
  import opened Optimizer

  datatype Phase = Uninitialized | NodePlanning | InitialPinning | Optimizing

  /** The options that the solver reads, in the ranges that src/config.cpp admits. */
  datatype Options = Options(
    maxPerCpu: nat,
    slotSlack: nat,
    slack: real,
    passes: nat,
    planConfirmations: nat,
    confirmations: nat,
    dwell: nat,
    initialRatio: real,
    ratio: real,
    minGain: real,
    threshold: real,
    growthRatio: real,
    growthMin: nat)
  {
    predicate Valid() {
      && 0.0 <= slack <= 1.0 && planConfirmations >= 1 && confirmations >= 1
      && 0.0 < initialRatio <= 1.0 && 0.0 <= ratio <= 1.0
    }
  }

  datatype Proposal = Proposal(
    id: nat, phase: Phase, actions: seq<Action>, budget: nat, planConfirmed: bool, ready: bool)

  /** What happened to the managed threads, in order. */
  datatype Event = Dropped(tid: int) | Moved(id: Identity, time: nat)

  /** The managed threads: `identities_`, `threads_`, `baseline_cpu_`. */
  datatype Book = Book(identities: map<int, Identity>, threads: map<int, Thread>, baseline: map<int, int>)

  /** `initial_target_cpu_`, `initial_target_node_`, `previous_initial_target_node_` and
  `initial_candidate_identities_`. */
  datatype Plan = Plan(targets: Targets, previous: map<int, int>, candidates: map<int, Identity>)

  /** `placement_`, `pinned_`, `last_moved_ns_`. */
  datatype Place = Place(placement: map<int, int>, pinned: set<int>, lastMoved: map<int, nat>)

  /** What the proofs remember of a run: the plan of the first window of the plan under
  confirmation, the moves and drops, the candidates of every evaluation, the latest time. */
  datatype History = History(firstPlan: map<int, int>, events: seq<Event>, evals: seq<set<Key>>, clock: nat)

  datatype State = State(
    phase: Phase,
    generation: nat,
    nextId: nat,
    population: nat,
    replan: bool,
    confirmation: nat,
    book: Book,
    plan: Plan,
    place: Place,
    confirmations: map<Key, nat>,
    outstanding: Option<Proposal>,
    history: History)

  function Initial(): State {
    State(Uninitialized, 0, 1, 0, false, 0,
          Book(map[], map[], map[]), Plan(Targets(map[], map[]), map[], map[]), Place(map[], {}, map[]),
          map[], None, History(map[], [], [], 0))
  }

  // ----- slot cap, budget, bands -----

  /** Lines 558-563. */
  function SlotCap(hw: Machine, opt: Options, m: nat): int {
    if opt.maxPerCpu > 0 then opt.maxPerCpu
    else MaxInt(1, Ceil(m as real / |hw.cpus| as real) + opt.slotSlack)
  }

  lemma DynamicCapSuffices(hw: Machine, opt: Options, m: nat)
    requires opt.maxPerCpu == 0
    ensures Roomy(hw, opt, m)
  {
    var c, q := |hw.cpus|, m as real / |hw.cpus| as real;
    QuotientTimes(m as real, c as real);
    var slot := SlotCap(hw, opt, m);
    MulMono(q, slot as real, c as real);
    RealProduct(slot, c, m);
  }

  /** The slots suffice for `m` threads. */
  predicate Roomy(hw: Machine, opt: Options, m: nat) {
    m <= SlotCap(hw, opt, m) * |hw.cpus|
  }

  lemma SlotCapPositive(hw: Machine, opt: Options, m: nat)
    ensures SlotCap(hw, opt, m) >= 1
  {
  }

  function Budget(m: nat, ratio: real): nat {
    var b := (m as real * ratio).Floor;
    if b < 0 then 0 else b
  }

  /** Every node holds between its floor and its cap of a plan for `m` threads. */
  ghost predicate Band(hw: Machine, opt: Options, m: nat, plan: map<int, int>) {
    forall n :: n in Nodes(hw) ==>
      Get(FloorTable(hw, m, opt.slack), n) <= Count(plan, n) <= Get(CapTable(hw, m, opt.slack, SlotCap(hw, opt, m)), n)
  }

  // ----- histories -----

  /** When the thread last changed CPU since it was last dropped. */
  function LastMove(events: seq<Event>, id: Identity): Option<nat> {
    if events == [] then None
    else
      var e, rest := events[|events| - 1], events[..|events| - 1];
      if e == Dropped(id.tid) then None
      else if e.Moved? && e.id == id then Some(e.time)
      else LastMove(rest, id)
  }

  function Lookup(m: map<int, nat>, t: int): Option<nat> {
    if t in m then Some(m[t]) else None
  }

  // ----- the invariant -----

  // Each part of the invariant is stated on the fields it is about, so that a transition that
  // leaves those fields alone keeps it at once.

  ghost predicate Records(identities: map<int, Identity>, threads: map<int, Thread>) {
    && identities.Keys == threads.Keys
    && (forall t :: t in threads ==> threads[t].id == identities[t] && identities[t].tid == t)
  }

  ghost predicate RecordsOk(s: State) {
    Records(s.book.identities, s.book.threads)
  }

  ghost predicate Placed(hw: Machine, placement: map<int, int>, pinned: set<int>, tids: set<int>) {
    && placement.Keys == pinned && pinned <= tids
    && (forall t :: t in placement ==> placement[t] in NodeMap(hw))
  }

  ghost predicate PlacedOk(hw: Machine, s: State) {
    Placed(hw, s.place.placement, s.place.pinned, s.book.threads.Keys)
  }

  /** The plan under confirmation is what is left of the plan of its first window, and that
  plan was within its band. */
  ghost predicate Plans(hw: Machine, opt: Options, previous: map<int, int>, candidates: map<int, Identity>, firstPlan: map<int, int>) {
    && previous.Keys == candidates.Keys
    && SubMap(previous, firstPlan)
    && (forall t :: t in previous ==> previous[t] in Nodes(hw))
    && (firstPlan != map[] && Roomy(hw, opt, |firstPlan|) ==> Band(hw, opt, |firstPlan|, firstPlan))
  }

  ghost predicate PlanOk(hw: Machine, opt: Options, s: State) {
    Plans(hw, opt, s.plan.previous, s.plan.candidates, s.history.firstPlan)
  }

  /** `last_moved_ns_` is what the history says, and only current identities have a history. */
  ghost predicate Moves(identities: map<int, Identity>, lastMoved: map<int, nat>, events: seq<Event>, clock: nat) {
    && (forall t :: t in identities ==> LastMove(events, identities[t]) == Lookup(lastMoved, t))
    && (forall id :: LastMove(events, id).Some? ==> id.tid in identities && identities[id.tid] == id)
    && (forall t :: t in lastMoved ==> t in identities && lastMoved[t] <= clock)
  }

  ghost predicate MovesOk(s: State) {
    Moves(s.book.identities, s.place.lastMoved, s.history.events, s.history.clock)
  }

  ghost predicate Streaks(confirmations: map<Key, nat>, evals: seq<set<Key>>) {
    && (forall k :: k in confirmations ==> confirmations[k] == Streak(evals, k))
    && (forall k :: k !in confirmations ==> Streak(evals, k) == 0)
  }

  ghost predicate StreaksOk(s: State) {
    Streaks(s.confirmations, s.history.evals)
  }

  ghost predicate Slots(opt: Options, placement: map<int, int>) {
    opt.maxPerCpu > 0 ==> SlotsKept(placement, opt.maxPerCpu)
  }

  ghost predicate SlotsOk(opt: Options, s: State) {
    Slots(opt, s.place.placement)
  }

  function Restrict(at: map<int, int>, keep: set<int>): map<int, int> {
    map t | t in at && t in keep :: at[t]
  }

  /** The placement that a full commit leads to, as far as its threads are still managed. */
  function Outcome(s: State, actions: seq<Action>): map<int, int> {
    Restrict(After(s.place.placement, actions), s.book.threads.Keys)
  }

  ghost predicate Pending(hw: Machine, opt: Options, actions: seq<Action>, identities: map<int, Identity>, outcome: map<int, int>) {
    && actions != []
    && (forall i, j :: 0 <= i < j < |actions| ==> actions[i].id.tid != actions[j].id.tid)
    && (forall a :: a in actions ==> a.to in NodeMap(hw))
    && (forall a :: a in actions && a.id.tid in identities ==> identities[a.id.tid] == a.id)
    && Slots(opt, outcome)
  }

  ghost predicate OutstandingOk(hw: Machine, opt: Options, s: State) {
    s.outstanding.Some? ==>
      Pending(hw, opt, s.outstanding.value.actions, s.book.identities, Outcome(s, s.outstanding.value.actions))
  }

  ghost predicate Core(hw: Machine, opt: Options, s: State) {
    && RecordsOk(s) && PlacedOk(hw, s) && s.plan.targets.For(NodeMap(hw), {})
    && PlanOk(hw, opt, s) && MovesOk(s) && StreaksOk(s)
    && SlotsOk(opt, s) && OutstandingOk(hw, opt, s)
  }

  ghost predicate PhaseOk(s: State) {
    && (s.phase == Optimizing ==> s.place.pinned == s.book.threads.Keys)
    && (s.phase == InitialPinning || s.phase == Optimizing ==> s.book.threads.Keys <= s.plan.targets.cpu.Keys)
  }

  ghost predicate Inv(hw: Machine, opt: Options, s: State) {
    Core(hw, opt, s) && PhaseOk(s)
  }

  lemma InitialInv(hw: Machine, opt: Options)
    ensures Inv(hw, opt, Initial())
  {
    assert SlotsKept(map[], opt.maxPerCpu);
  }

  // ----- removing a thread (lines 525-541) -----

  function Removed(s: State, tid: int): State {
    s.(book := Book(s.book.identities - {tid}, s.book.threads - {tid}, s.book.baseline - {tid}),
       plan := Plan(Targets(s.plan.targets.cpu - {tid}, s.plan.targets.node - {tid}),
                    s.plan.previous - {tid}, s.plan.candidates - {tid}),
       place := Place(s.place.placement - {tid}, s.place.pinned - {tid}, s.place.lastMoved - {tid}),
       history := s.history.(events := s.history.events + [Dropped(tid)]))
  }

  lemma LastMoveDropped(events: seq<Event>, tid: int, id: Identity)
    ensures LastMove(events + [Dropped(tid)], id) == if id.tid == tid then None else LastMove(events, id)
  {
    var longer := events + [Dropped(tid)];
    assert longer[..|longer| - 1] == events;
  }

  lemma LastMoveMoved(events: seq<Event>, who: Identity, time: nat, id: Identity)
    ensures LastMove(events + [Moved(who, time)], id) == if id == who then Some(time) else LastMove(events, id)
  {
    var longer := events + [Moved(who, time)];
    assert longer[..|longer| - 1] == events;
  }

  lemma RemovedMoves(s: State, tid: int)
    requires RecordsOk(s) && MovesOk(s)
    ensures MovesOk(Removed(s, tid))
  {
    var r := Removed(s, tid);
    forall id
      ensures LastMove(r.history.events, id) == if id.tid == tid then None else LastMove(s.history.events, id)
    {
      LastMoveDropped(s.history.events, tid, id);
    }
  }

  lemma {:induction false} AfterWithout(at: map<int, int>, actions: seq<Action>, tid: int, t: int)
    requires t != tid
    ensures t in After(at - {tid}, actions) <==> t in After(at, actions)
    ensures t in After(at, actions) ==> After(at - {tid}, actions)[t] == After(at, actions)[t]
    decreases |actions|
  {
    if actions != [] {
      var a := actions[0];
      var next := at[a.id.tid := a.to];
      if a.id.tid == tid {
        assert (at - {tid})[tid := a.to] - {tid} == next - {tid};
        AfterWithout((at - {tid})[tid := a.to], actions[1..], tid, t);
      } else {
        assert (at - {tid})[a.id.tid := a.to] == next - {tid};
      }
      AfterWithout(next, actions[1..], tid, t);
    }
  }

  lemma RemovedOutcome(s: State, tid: int, actions: seq<Action>)
    ensures SubMap(Outcome(Removed(s, tid), actions), Outcome(s, actions))
  {
    var small, big := Outcome(Removed(s, tid), actions), Outcome(s, actions);
    forall t | t in small
      ensures t in big && small[t] == big[t]
    {
      AfterWithout(s.place.placement, actions, tid, t);
    }
  }

  lemma SlotsKeptSub(small: map<int, int>, big: map<int, int>, slot: int)
    requires SubMap(small, big) && SlotsKept(big, slot)
    ensures SlotsKept(small, slot)
  {
    forall c
      ensures Count(small, c) <= slot
    {
      CountSub(small, big, c);
    }
  }

  lemma RemovedSlots(hw: Machine, opt: Options, s: State, tid: int)
    requires SlotsOk(opt, s) && OutstandingOk(hw, opt, s) && s.book.identities.Keys == s.book.threads.Keys
    ensures SlotsOk(opt, Removed(s, tid)) && OutstandingOk(hw, opt, Removed(s, tid))
  {
    var r := Removed(s, tid);
    if opt.maxPerCpu > 0 {
      SlotsKeptSub(r.place.placement, s.place.placement, opt.maxPerCpu);
      if s.outstanding.Some? {
        RemovedOutcome(s, tid, s.outstanding.value.actions);
        SlotsKeptSub(Outcome(r, s.outstanding.value.actions), Outcome(s, s.outstanding.value.actions), opt.maxPerCpu);
      }
    }
    hide Outcome, SlotsKept;
  }

  lemma RemovedRecords(hw: Machine, s: State, tid: int)
    requires RecordsOk(s) && PlacedOk(hw, s) && s.plan.targets.For(NodeMap(hw), {})
    ensures RecordsOk(Removed(s, tid)) && PlacedOk(hw, Removed(s, tid)) && Removed(s, tid).plan.targets.For(NodeMap(hw), {})
    ensures PhaseOk(s) ==> PhaseOk(Removed(s, tid))
  {
    hide NodeMap;
  }

  lemma RemovedPlan(hw: Machine, opt: Options, s: State, tid: int)
    requires PlanOk(hw, opt, s)
    ensures PlanOk(hw, opt, Removed(s, tid))
  {
    hide Band, Nodes, Roomy;
  }

  /** Dropping a thread keeps the invariant, whatever phase the solver is in. */
  lemma RemovedInv(hw: Machine, opt: Options, s: State, tid: int)
    requires Core(hw, opt, s)
    ensures Core(hw, opt, Removed(s, tid))
    ensures PhaseOk(s) ==> PhaseOk(Removed(s, tid))
  {
    RemovedMoves(s, tid);
    RemovedSlots(hw, opt, s, tid);
    RemovedRecords(hw, s, tid);
    RemovedPlan(hw, opt, s, tid);
    hide MovesOk, SlotsOk, OutstandingOk, RecordsOk, PlacedOk, PlanOk, PhaseOk, Targets.For, NodeMap, Streaks;
  }

  // ----- committing (lines 1559-1584) -----

  function CommitOne(s: State, a: Action, now: nat): State {
    var t, moves := a.id.tid, a.from != a.to;
    s.(place := Place(s.place.placement[t := a.to], s.place.pinned + {t},
                      if moves then s.place.lastMoved[t := now] else s.place.lastMoved),
       history := s.history.(events := if moves then s.history.events + [Moved(a.id, now)] else s.history.events))
  }

  function AtTime(s: State, now: nat): State {
    s.(history := s.history.(clock := now))
  }

  /** An empty committed set stands for all actions. */
  predicate IsCommitted(committed: set<int>, a: Action) {
    committed == {} || a.id.tid in committed
  }

  function CommitMany(s: State, actions: seq<Action>, committed: set<int>, now: nat): State {
    if actions == [] then s
    else
      var t, a := CommitMany(s, actions[..|actions| - 1], committed, now), actions[|actions| - 1];
      if IsCommitted(committed, a) then CommitOne(t, a, now) else t
  }

  predicate OnTarget(s: State, t: int) {
    t in s.plan.targets.cpu && t in s.place.placement && s.place.placement[t] == s.plan.targets.cpu[t]
  }

  /** Lines 720-728 and 1571-1576. */
  predicate TargetsEffective(s: State) {
    |s.place.pinned| == |s.book.threads| && (s.replan ==> forall t :: t in s.book.threads ==> OnTarget(s, t))
  }

  function Committed(s: State, p: Proposal, now: nat, committed: set<int>): State {
    if s.outstanding.None? || s.outstanding.value.id != p.id then s
    else
      var t := CommitMany(s, p.actions, committed, now);
      var done := t.phase == InitialPinning && TargetsEffective(t);
      t.(phase := if done then Optimizing else t.phase,
         replan := if done then false else t.replan,
         generation := t.generation + 1,
         outstanding := None,
         history := t.history.(clock := now))
  }

  function Discarded(s: State, p: Proposal): State {
    if s.outstanding.Some? && s.outstanding.value.id == p.id then s.(outstanding := None) else s
  }

  /** The runtime's protocol: commit the outstanding proposal; exactly the actions whose
  threads are still managed are committed, because vanished threads are removed first. */
  predicate Follows(s: State, p: Proposal, committed: set<int>) {
    s.outstanding == Some(p) && forall a :: a in p.actions ==> (a.id.tid in s.book.threads <==> IsCommitted(committed, a))
  }

  /** Only the placement and its bookkeeping change while actions are committed. */
  lemma {:induction false} CommitManyFrame(s: State, actions: seq<Action>, committed: set<int>, now: nat)
    ensures var t := CommitMany(s, actions, committed, now);
      t == s.(place := t.place, history := s.history.(events := t.history.events))
  {
    if actions != [] {
      CommitManyFrame(s, actions[..|actions| - 1], committed, now);
    }
  }

  lemma OutcomeStep(s: State, rest: seq<Action>, a: Action)
    requires s.place.placement.Keys <= s.book.threads.Keys
    ensures Outcome(s, rest + [a]) == if a.id.tid in s.book.threads then Outcome(s, rest)[a.id.tid := a.to] else Outcome(s, rest)
  {
    AfterOne(s.place.placement, rest, a);
    hide After;
    var more, few := Outcome(s, rest + [a]), Outcome(s, rest);
    forall t
      ensures t in more <==> t in (if a.id.tid in s.book.threads then few[a.id.tid := a.to] else few)
    {
    }
  }

  lemma OutcomeNone(s: State)
    requires s.place.placement.Keys <= s.book.threads.Keys
    ensures Outcome(s, []) == s.place.placement
  {
    forall t
      ensures t in Outcome(s, []) <==> t in s.place.placement
    {
      assert t in s.place.placement ==> t in s.place.placement.Keys;
    }
  }

  lemma {:induction false} CommitManyPlacement(s: State, actions: seq<Action>, committed: set<int>, now: nat)
    requires s.place.placement.Keys <= s.book.threads.Keys
    requires forall a :: a in actions ==> (a.id.tid in s.book.threads <==> IsCommitted(committed, a))
    ensures CommitMany(s, actions, committed, now).place.placement == Outcome(s, actions)
  {
    hide Outcome, IsCommitted;
    if actions == [] {
      OutcomeNone(s);
    } else {
      var n := |actions| - 1;
      var rest, a := actions[..n], actions[n];
      CommitManyPlacement(s, rest, committed, now);
      assert actions == rest + [a] && a in actions;
      OutcomeStep(s, rest, a);
    }
  }

  lemma {:induction false} CommitManyPinned(s: State, actions: seq<Action>, committed: set<int>, now: nat)
    requires s.place.placement.Keys == s.place.pinned
    ensures var t := CommitMany(s, actions, committed, now); t.place.placement.Keys == t.place.pinned
    ensures s.place.pinned <= CommitMany(s, actions, committed, now).place.pinned
  {
    if actions != [] {
      CommitManyPinned(s, actions[..|actions| - 1], committed, now);
    }
  }

  lemma CommitOneMoves(s: State, a: Action, now: nat)
    requires RecordsOk(s) && MovesOk(s) && s.history.clock <= now
    requires a.id.tid in s.book.identities && s.book.identities[a.id.tid] == a.id
    ensures MovesOk(AtTime(CommitOne(s, a, now), now))
  {
    var t := AtTime(CommitOne(s, a, now), now);
    if a.from != a.to {
      forall id
        ensures LastMove(t.history.events, id) == if id == a.id then Some(now) else LastMove(s.history.events, id)
      {
        LastMoveMoved(s.history.events, a.id, now, id);
      }
    }
  }

  lemma {:induction false} CommitManyMoves(s: State, actions: seq<Action>, committed: set<int>, now: nat)
    requires RecordsOk(s) && MovesOk(s) && s.history.clock <= now
    requires forall a :: a in actions && IsCommitted(committed, a) ==> a.id.tid in s.book.identities && s.book.identities[a.id.tid] == a.id
    ensures MovesOk(AtTime(CommitMany(s, actions, committed, now), now))
  {
    if actions == [] {
      assert MovesOk(AtTime(s, now));
    } else {
      var n := |actions| - 1;
      var t := CommitMany(s, actions[..n], committed, now);
      CommitManyMoves(s, actions[..n], committed, now);
      CommitManyFrame(s, actions[..n], committed, now);
      assert actions[n] in actions;
      if IsCommitted(committed, actions[n]) {
        CommitOneMoves(AtTime(t, now), actions[n], now);
        assert AtTime(CommitOne(AtTime(t, now), actions[n], now), now) == AtTime(CommitOne(t, actions[n], now), now);
      }
    }
  }

  lemma AllPinned(s: State)
    requires s.place.pinned <= s.book.threads.Keys && |s.place.pinned| == |s.book.threads|
    ensures s.place.pinned == s.book.threads.Keys
  {
    assert |s.book.threads| == |s.book.threads.Keys|;
    if s.place.pinned != s.book.threads.Keys {
      ProperCard(s.place.pinned, s.book.threads.Keys);
    }
  }

  lemma ProperCard(a: set<int>, b: set<int>)
    requires a <= b
    ensures a == b || |a| < |b|
  {
    Inhabited(b - a);
    if b - a == {} {
      assert a == b;
    } else {
      var x :| x in b - a;
      SubsetCard(a, b - {x});
      CardWithout(b, x);
    }
  }

  lemma CommittedPlaced(hw: Machine, opt: Options, s: State, p: Proposal, now: nat, committed: set<int>)
    requires PlacedOk(hw, s) && OutstandingOk(hw, opt, s) && Follows(s, p, committed)
    ensures var r := Committed(s, p, now, committed);
      PlacedOk(hw, r) && SlotsOk(opt, r) && r.place.placement == Outcome(s, p.actions)
  {
    CommitManyFrame(s, p.actions, committed, now);
    CommitManyPlacement(s, p.actions, committed, now);
    CommitManyPinned(s, p.actions, committed, now);
    OutcomeOnline(hw, s, p.actions);
    OutcomeKeys(s, p.actions);
    hide CommitMany, Outcome, SlotsKept, NodeMap, OnTarget, TargetsEffective;
  }

  lemma CommittedPhase(hw: Machine, opt: Options, s: State, p: Proposal, now: nat, committed: set<int>)
    requires PlacedOk(hw, s) && PhaseOk(s) && Follows(s, p, committed)
    requires PlacedOk(hw, Committed(s, p, now, committed))
    ensures PhaseOk(Committed(s, p, now, committed))
  {
    var t := CommitMany(s, p.actions, committed, now);
    CommitManyFrame(s, p.actions, committed, now);
    CommitManyPinned(s, p.actions, committed, now);
    hide CommitMany, NodeMap, OnTarget, Follows;
    if |t.place.pinned| == |t.book.threads| {
      AllPinned(t);
    }
  }

  lemma OutcomeKeys(s: State, actions: seq<Action>)
    ensures Outcome(s, actions).Keys <= s.book.threads.Keys
  {
  }

  lemma CommittedMoves(hw: Machine, opt: Options, s: State, p: Proposal, now: nat, committed: set<int>)
    requires RecordsOk(s) && MovesOk(s) && OutstandingOk(hw, opt, s) && Follows(s, p, committed) && s.history.clock <= now
    ensures MovesOk(Committed(s, p, now, committed))
  {
    CommitManyFrame(s, p.actions, committed, now);
    CommitManyMoves(s, p.actions, committed, now);
    hide Moves, CommitMany, TargetsEffective;
  }

  /** A commit that follows the protocol keeps the invariant; in particular no CPU exceeds a
  fixed slot cap after it. */
  lemma CommittedInv(hw: Machine, opt: Options, s: State, p: Proposal, now: nat, committed: set<int>)
    requires Inv(hw, opt, s) && Follows(s, p, committed) && s.history.clock <= now
    ensures Inv(hw, opt, Committed(s, p, now, committed))
    ensures Committed(s, p, now, committed).place.placement == Outcome(s, p.actions)
  {
    CommitManyFrame(s, p.actions, committed, now);
    CommittedPlaced(hw, opt, s, p, now, committed);
    CommittedPhase(hw, opt, s, p, now, committed);
    CommittedMoves(hw, opt, s, p, now, committed);
    hide MovesOk, PlacedOk, PhaseOk, SlotsOk, CommitMany, Outcome, NodeMap, TargetsEffective, Records, Plans, Streaks, Pending;
  }

  lemma CommittedClock(s: State, p: Proposal, now: nat, committed: set<int>)
    requires s.outstanding == Some(p)
    ensures Committed(s, p, now, committed).history.clock == now && Committed(s, p, now, committed).outstanding.None?
    ensures Committed(s, p, now, committed).book == s.book
  {
    CommitManyFrame(s, p.actions, committed, now);
    hide CommitMany, TargetsEffective;
  }

  lemma {:induction false} OutcomeOnline(hw: Machine, s: State, actions: seq<Action>)
    requires forall t :: t in s.place.placement ==> s.place.placement[t] in NodeMap(hw)
    requires forall a :: a in actions ==> a.to in NodeMap(hw)
    ensures forall t :: t in Outcome(s, actions) ==> Outcome(s, actions)[t] in NodeMap(hw)
  {
    AfterOnline(NodeMap(hw).Keys, s.place.placement, actions);
  }

  lemma {:induction false} AfterOnline(online: set<int>, at: map<int, int>, actions: seq<Action>)
    requires forall t :: t in at ==> at[t] in online
    requires forall a :: a in actions ==> a.to in online
    ensures forall t :: t in After(at, actions) ==> After(at, actions)[t] in online
    decreases |actions|
  {
    if actions != [] {
      assert actions[0] in actions;
      AfterOnline(online, at[actions[0].id.tid := actions[0].to], actions[1..]);
    }
  }

  lemma DiscardedInv(hw: Machine, opt: Options, s: State, p: Proposal)
    requires Inv(hw, opt, s)
    ensures Inv(hw, opt, Discarded(s, p))
  {
    hide Records, Placed, Plans, Moves, Streaks, Slots, Pending, NodeMap;
  }

  // ----- admitting a thread (lines 616-697) -----

  /** A CPU for a thread that arrives after the initial plan, with the node of that CPU. */
  datatype Seat = Seat(cpu: int, node: int)

  function Admitted(s: State, th: Thread, seat: Option<Seat>): State {
    var t, old' := th.id.tid, s.plan.targets;
    s.(book := Book(s.book.identities[t := th.id], s.book.threads[t := th], s.book.baseline[t := th.cpu]),
       plan := if seat.Some?
               then s.plan.(targets := Targets(old'.cpu[t := seat.value.cpu], old'.node[t := seat.value.node]))
               else s.plan)
  }

  function Refreshed(s: State, th: Thread): State {
    s.(book := s.book.(threads := s.book.threads[th.id.tid := th]))
  }

  lemma AdmittedRecords(hw: Machine, s: State, th: Thread, seat: Option<Seat>)
    requires RecordsOk(s) && PlacedOk(hw, s) && s.plan.targets.For(NodeMap(hw), {})
    requires th.id.tid !in s.book.threads
    requires seat.Some? ==> seat.value.cpu in NodeMap(hw) && NodeMap(hw)[seat.value.cpu] == seat.value.node
    ensures var r := Admitted(s, th, seat); RecordsOk(r) && PlacedOk(hw, r) && r.plan.targets.For(NodeMap(hw), {})
  {
    hide NodeMap;
  }

  lemma AdmittedMoves(s: State, th: Thread, seat: Option<Seat>)
    requires RecordsOk(s) && MovesOk(s) && th.id.tid !in s.book.threads
    ensures MovesOk(Admitted(s, th, seat))
  {
    var r := Admitted(s, th, seat);
    assert LastMove(s.history.events, th.id).None?;
    forall t | t in r.book.identities
      ensures LastMove(r.history.events, r.book.identities[t]) == Lookup(r.place.lastMoved, t)
    {
      if t != th.id.tid {
        assert t in s.book.identities;
      }
    }
  }

  /** A new thread starts without placement and without a move on record. */
  lemma AdmittedCore(hw: Machine, opt: Options, s: State, th: Thread, seat: Option<Seat>)
    requires Core(hw, opt, s) && s.outstanding.None? && th.id.tid !in s.book.threads
    requires seat.Some? ==> seat.value.cpu in NodeMap(hw) && NodeMap(hw)[seat.value.cpu] == seat.value.node
    ensures Core(hw, opt, Admitted(s, th, seat))
    ensures th.id.tid !in Admitted(s, th, seat).place.placement && th.id.tid !in Admitted(s, th, seat).place.lastMoved
  {
    AdmittedRecords(hw, s, th, seat);
    AdmittedMoves(s, th, seat);
    assert th.id.tid !in s.place.placement && th.id.tid !in s.place.lastMoved by {
      hide Plans, Streaks, Slots, NodeMap, LastMove;
    }
    hide RecordsOk, PlacedOk, MovesOk, Plans, Streaks, Slots, Targets.For, NodeMap;
  }

  lemma RefreshedCore(hw: Machine, opt: Options, s: State, th: Thread)
    requires Core(hw, opt, s) && s.outstanding.None?
    requires th.id.tid in s.book.identities && s.book.identities[th.id.tid] == th.id
    ensures Core(hw, opt, Refreshed(s, th)) && Refreshed(s, th).book.threads.Keys == s.book.threads.Keys
  {
    RefreshedRecords(s, th);
    hide RecordsOk, Placed, Plans, Moves, Streaks, Slots, Targets.For, NodeMap;
  }

  lemma RefreshedRecords(s: State, th: Thread)
    requires RecordsOk(s) && th.id.tid in s.book.identities && s.book.identities[th.id.tid] == th.id
    ensures RecordsOk(Refreshed(s, th)) && Refreshed(s, th).book.threads.Keys == s.book.threads.Keys
  {
  }
}
