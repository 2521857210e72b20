/** How a reset solver becomes effective on a stable population: the planning windows, the
pinning commits, and the measure that every commit lowers. */
module StartUp {
  import opened Lists
  import opened Topology
  import opened Threads
  import opened NodePlanner
  import opened Pinning
  import opened Optimizer
  import opened SolverState
  import opened Admission
  import opened Windows
  import opened IncrementalSolver

  // ----- a full commit of a pinning batch -----

  lemma CommitAllStep(s: State, rest: seq<Action>, a: Action, now: nat)
    ensures var u, t := CommitMany(s, rest, {}, now), CommitMany(s, rest + [a], {}, now);
      t.place.pinned == u.place.pinned + {a.id.tid} && t.place.placement == u.place.placement[a.id.tid := a.to]
  {
    assert (rest + [a])[..|rest|] == rest;
  }

  lemma {:induction false} CommitAllEffect(s: State, actions: seq<Action>, now: nat)
    ensures var t := CommitMany(s, actions, {}, now);
      t.place.pinned == s.place.pinned + TidsOf(actions) && t.place.placement == After(s.place.placement, actions)
  {
    hide After, TidsOf, CommitMany;
    if actions == [] {
      CommitNothing(s, now);
    } else {
      var n := |actions| - 1;
      var rest, a := actions[..n], actions[n];
      CommitAllEffect(s, rest, now);
      assert actions == rest + [a];
      CommitAllStep(s, rest, a, now);
      AfterOne(s.place.placement, rest, a);
      TidsOfOne(rest, a);
      SetPlus(s.place.pinned, TidsOf(rest), a.id.tid);
    }
  }

  lemma CommitNothing(s: State, now: nat)
    ensures CommitMany(s, [], {}, now) == s && s.place.pinned == s.place.pinned + TidsOf([]) && After(s.place.placement, []) == s.place.placement
  {
  }

  lemma SetPlus(a: set<int>, b: set<int>, t: int)
    ensures a + (b + {t}) == a + b + {t}
  {
  }

  lemma AfterPin(hw: Machine, s: State, cpu: map<int, int>, batch: seq<int>, t: int)
    requires RecordsOk(s) && Distinct(batch)
    requires forall i :: 0 <= i < |batch| ==> batch[i] in s.book.threads && batch[i] in s.book.identities && batch[i] in cpu
    ensures var a, b := After(s.place.placement, PinActions(hw, s.book, s.place.placement, cpu, batch)), s.place.placement + Batch(cpu, batch);
      (t in a <==> t in b) && (t in a ==> a[t] == b[t])
  {
    var actions := PinActions(hw, s.book, s.place.placement, cpu, batch);
    PinTids(hw, s, cpu, batch);
    BatchAt(cpu, batch, t);
    hide PinActions, Batch, After, TidsOf, RecordsOk;
    if t in batch {
      var i :| 0 <= i < |batch| && batch[i] == t;
      AfterAt(s.place.placement, actions, actions[i]);
    } else {
      AfterElsewhere(s.place.placement, actions, t);
    }
  }

  lemma AfterPins(hw: Machine, s: State, cpu: map<int, int>, batch: seq<int>)
    requires RecordsOk(s) && Distinct(batch)
    requires forall i :: 0 <= i < |batch| ==> batch[i] in s.book.threads && batch[i] in s.book.identities && batch[i] in cpu
    ensures After(s.place.placement, PinActions(hw, s.book, s.place.placement, cpu, batch)) == s.place.placement + Batch(cpu, batch)
    ensures TidsOf(PinActions(hw, s.book, s.place.placement, cpu, batch)) == set t | t in batch
  {
    hide PinActions, Batch, After, TidsOf, RecordsOk;
    var actions := PinActions(hw, s.book, s.place.placement, cpu, batch);
    PinTids(hw, s, cpu, batch);
    var a, b := After(s.place.placement, actions), s.place.placement + Batch(cpu, batch);
    forall t
      ensures t in a <==> t in b
      ensures t in a ==> a[t] == b[t]
    {
      AfterPin(hw, s, cpu, batch, t);
    }
    forall t
      ensures t in TidsOf(actions) <==> t in (set t | t in batch)
    {
    }
  }

  /** Nothing is pending exactly when the initial targets are effective. */
  lemma EffectiveIffNothingPending(s: State)
    requires s.place.pinned <= s.book.threads.Keys && s.book.threads.Keys <= s.plan.targets.cpu.Keys
    ensures TargetsEffective(s) <==> PendingOf(s) == {}
  {
    assert |s.book.threads| == |s.book.threads.Keys|;
    if TargetsEffective(s) {
      AllPinned(s);
      forall t | t in s.book.threads.Keys
        ensures t !in PendingOf(s)
      {
        assert t in s.book.threads;
      }
    }
    if PendingOf(s) == {} {
      NonePendingPinned(s);
      forall t | t in s.book.threads
        ensures s.replan ==> OnTarget(s, t)
      {
        assert t !in PendingOf(s);
        assert t in s.plan.targets.cpu.Keys;
      }
    }
  }

  /** A full commit of a pinning batch takes its threads off the pending list, and ends the
  pinning phase exactly when none is left. */
  lemma PinCommitProgress(hw: Machine, opt: Options, s: State, t: State, p: Proposal, batch: seq<int>, now: nat)
    requires Inv(hw, opt, s) && s.phase == InitialPinning && PinStep(hw, s, t, p, batch) && p.ready
    ensures Follows(t, p, {})
    ensures var c := Committed(t, p, now, {});
      && (|PendingOf(s)| == |batch| ==> c.phase == Optimizing && c.place.pinned == c.book.threads.Keys && !c.replan)
      && (|PendingOf(s)| > |batch| ==> c.phase == InitialPinning && |PendingOf(c)| == |PendingOf(s)| - |batch| && c.replan == s.replan)
      && c.book == s.book && c.outstanding.None?
  {
    var m := CommitMany(t, p.actions, {}, now);
    hide Inv, Core, PhaseOk, CommitMany, PinActions, After, TidsOf, NodeMap, TargetsEffective, PendingOf, Follows;
    PinFollows(hw, opt, s, t, p, batch);
    CommitManyFrame(t, p.actions, {}, now);
    CommitAllEffect(t, p.actions, now);
    PinPending'(hw, opt, s, t, p, batch, m);
    CommittedIs(t, p, now, m);
  }

  lemma CommittedIs(t: State, p: Proposal, now: nat, m: State)
    requires t.outstanding == Some(p) && m == CommitMany(t, p.actions, {}, now)
    requires TargetsEffective(m) <==> PendingOf(m) == {}
    ensures var c := Committed(t, p, now, {}); var done := m.phase == InitialPinning && PendingOf(m) == {};
      && c.phase == (if done then Optimizing else m.phase) && c.replan == (if done then false else m.replan)
      && c.book == m.book && c.place == m.place && c.outstanding.None? && (!done ==> PendingOf(c) == PendingOf(m))
  {
    hide CommitMany, TargetsEffective;
  }

  lemma PinFollows(hw: Machine, opt: Options, s: State, t: State, p: Proposal, batch: seq<int>)
    requires Inv(hw, opt, s) && PinStep(hw, s, t, p, batch) && p.ready
    ensures Follows(t, p, {}) && RecordsOk(s) && t.outstanding == Some(p)
    ensures t == WithBatch(s, t.plan.targets, p)
    ensures forall i :: 0 <= i < |batch| ==> batch[i] in s.book.threads && batch[i] in s.book.identities && batch[i] in t.plan.targets.cpu
  {
    hide Core, NodeMap, PendingOf;
    NumberedCore(hw, opt, s);
    CoreParts(hw, opt, s);
    PendingManaged(s);
    forall i | 0 <= i < |batch|
      ensures batch[i] in s.book.threads
    {
      var x := batch[i];
      assert x in batch;
      assert x in PendingOf(s);
    }
    PinTids(hw, s, t.plan.targets.cpu, batch);
    forall a | a in p.actions
      ensures a.id.tid in t.book.threads
    {
      var i :| 0 <= i < |p.actions| && p.actions[i] == a;
      assert a.id.tid == batch[i];
    }
  }

  lemma PinPending'(hw: Machine, opt: Options, s: State, t: State, p: Proposal, batch: seq<int>, m: State)
    requires Inv(hw, opt, s) && s.phase == InitialPinning && PinStep(hw, s, t, p, batch) && p.ready && RecordsOk(s)
    requires t == WithBatch(s, t.plan.targets, p)
    requires forall i :: 0 <= i < |batch| ==> batch[i] in s.book.threads && batch[i] in s.book.identities && batch[i] in t.plan.targets.cpu
    requires m == t.(place := m.place, history := m.history)
    requires m.place.pinned == t.place.pinned + TidsOf(p.actions) && m.place.placement == After(t.place.placement, p.actions)
    ensures PendingOf(m) == PendingOf(s) - (set x | x in batch) && |PendingOf(m)| == |PendingOf(s)| - |batch|
    ensures TargetsEffective(m) <==> PendingOf(m) == {}
    ensures m.place.pinned <= m.book.threads.Keys && (PendingOf(m) == {} ==> m.place.pinned == m.book.threads.Keys)
  {
    hide Core, NodeMap, After, TidsOf, PinActions, TargetsEffective, IsPending, PhaseOk;
    AfterPins(hw, s, t.plan.targets.cpu, batch);
    NumberedCore(hw, opt, s);
    CorePinned(hw, opt, s);
    BatchInside(s, t, batch);
    PinningTakesOff(s.book.threads.Keys, s.place.pinned, s.replan, s.place.placement, s.plan.targets.cpu, t.plan.targets.cpu, batch);
    DifferenceSize(PendingOf(s), batch);
    EffectiveIffNothingPending(m);
    NonePendingPinned(m);
  }

  lemma BatchInside(s: State, t: State, batch: seq<int>)
    requires forall i :: 0 <= i < |batch| ==> batch[i] in s.book.threads && batch[i] in t.plan.targets.cpu
    ensures forall x :: x in batch ==> x in s.book.threads.Keys && x in t.plan.targets.cpu
    ensures (set x | x in batch) <= s.book.threads.Keys
  {
    forall x | x in batch
      ensures x in s.book.threads.Keys && x in t.plan.targets.cpu
    {
      var i :| 0 <= i < |batch| && batch[i] == x;
    }
  }

  lemma NonePendingPinned(m: State)
    requires m.place.pinned <= m.book.threads.Keys
    ensures PendingOf(m) == {} ==> m.place.pinned == m.book.threads.Keys
  {
    if PendingOf(m) == {} {
      forall t | t in m.book.threads.Keys
        ensures t in m.place.pinned
      {
        assert t !in PendingOf(m);
      }
    }
  }

  // ----- windows on a stable population -----

  /** What one window hands to the solver. */
  datatype Feed = Feed(input: seq<Thread>, edges: seq<Edge>, ranked: seq<int>, now: nat)

  function IdSet(input: seq<Thread>): set<Identity> {
    set th | th in input :: th.id
  }

  /** The same threads in every window; demands, edges and ranking are arbitrary. */
  ghost predicate Stable(feed: nat -> Feed) {
    && (forall k: nat :: UniqueTids(feed(k).input) && Distinct(feed(k).ranked) && IdSet(feed(k).input) == IdSet(feed(0).input))
    && (forall j: nat, k: nat :: j <= k ==> feed(j).now <= feed(k).now)
    && feed(0).input != []
  }

  lemma QuietEverywhere(s: State, a: seq<Thread>, b: seq<Thread>)
    requires Quiet(s, a) && IdSet(a) == IdSet(b)
    ensures Quiet(s, b)
  {
    forall th | th in b
      ensures Known(s, th)
    {
      assert th.id in IdSet(a);
      var o :| o in a && o.id == th.id;
      assert Known(s, o);
    }
    forall t | t in s.book.identities
      ensures t in TidSet(b)
    {
      assert t in TidSet(a);
      var o :| o in a && o.id.tid == t;
      assert o.id in IdSet(b);
      var th :| th in b && th.id == o.id;
    }
  }

  /** The records hold exactly the threads of the window. */
  lemma RecordsQuiet(s: State, input: seq<Thread>)
    requires RecordsOk(s) && s.book.threads.Keys == TidSet(input)
    requires forall i :: 0 <= i < |input| ==> input[i].id.tid in s.book.threads && s.book.threads[input[i].id.tid] == input[i]
    ensures Quiet(s, input)
  {
    forall th | th in input
      ensures Known(s, th)
    {
      var i :| 0 <= i < |input| && input[i] == th;
    }
  }

  /** Between planning windows: the plan of the first window waits for `k` confirmations. */
  ghost predicate Waiting(s: State, input: seq<Thread>, k: nat, first: map<int, int>) {
    && input != [] && s.phase == NodePlanning && s.outstanding.None? && s.confirmation == k
    && Quiet(s, input) && s.book.threads.Keys == TidSet(input)
    && s.plan.previous == first && first != map[] && s.plan.candidates == s.book.identities
    && s.place.pinned == {} && !s.replan
  }

  /** Between pinning windows: `m` threads are pending. */
  ghost predicate Pinning'(s: State, input: seq<Thread>, m: nat) {
    && input != [] && s.phase == InitialPinning && s.outstanding.None? && Quiet(s, input) && s.book.threads.Keys == TidSet(input)
    && |PendingOf(s)| == m
  }

  /** After `k` planning windows. */
  ghost predicate Underway(opt: Options, t: State, input: seq<Thread>, k: nat, first: map<int, int>) {
    if k < opt.planConfirmations then Waiting(t, input, k, first)
    else Pinning'(t, input, |TidSet(input)|) && t.plan.targets.node == first
  }

  lemma AllPending(s: State)
    requires s.place.pinned == {}
    ensures PendingOf(s) == s.book.threads.Keys
  {
    forall t
      ensures t in PendingOf(s) <==> t in s.book.threads.Keys
    {
    }
  }

  /** From a planned state on: waiting, or confirmed with everybody pending. */
  lemma AfterPlanning(hw: Machine, opt: Options, u: State, w: State, t: State, input: seq<Thread>, k: nat, first: map<int, int>, confirmed: bool)
    requires PlanStep(hw, opt, w, t, confirmed) && Waiting(w, input, k, first)
    ensures confirmed == (k >= opt.planConfirmations)
    ensures !confirmed ==> Waiting(t, input, k, first)
    ensures confirmed ==> Pinning'(t, input, |TidSet(input)|) && t.plan.targets.node == first
  {
    if confirmed {
      hide GoodCpus, TidSet;
      assert Quiet(t, input);
      AllPending(t);
      hide PendingOf, Quiet;
    }
    hide GoodCpus, Quiet, PendingOf;
  }

  lemma PlanForSomebody(input: seq<Thread>, plan: map<int, int>)
    requires plan.Keys == TidSet(input) && input != []
    ensures plan != map[]
  {
    assert input[0] in input;
    assert input[0].id.tid in plan.Keys;
  }

  lemma FirstPlanned(hw: Machine, opt: Options, s: State, t: State, input: seq<Thread>, plan: map<int, int>)
    requires s.plan.previous == map[] && s.phase == NodePlanning && s.outstanding.None? && s.place.pinned == {} && !s.replan
    requires Quiet(s, input) && s.book.threads.Keys == TidSet(input) && input != [] && GoodPlan(hw, opt, s, plan)
    ensures Waiting(Planned(s, plan), input, 1, plan)
  {
    hide Quiet, TidSet, Band, Roomy, Nodes;
    PlanForSomebody(input, plan);
    QuietSame(s, Planned(s, plan), input);
  }

  /** The plan of the first window, computed from the threads and relations of that window. */
  ghost predicate FirstPlan(hw: Machine, opt: Options, t: State, f: Feed, first: map<int, int>) {
    Underway(opt, t, f.input, 1, first) && Computed(hw, opt, t.book, f.edges, first)
  }

  lemma PlanKeepsBook(hw: Machine, opt: Options, u: State, plan: map<int, int>, t: State, confirmed: bool)
    requires PlanStep(hw, opt, Planned(u, plan), t, confirmed)
    ensures t.book == u.book
  {
    hide GoodCpus;
  }

  /** The first window of a reset solver. */
  lemma FirstWindow(hw: Machine, opt: Options, s: State, t: State, r: Result<Proposal>, f: Feed)
    requires SyncDone(hw, opt, Initial(), s, f.input) && WindowDone(hw, opt, s, t, r, f.edges, f.ranked, f.now) && r.Ok? && f.input != []
    requires Inv(hw, opt, s)
    ensures exists first :: FirstPlan(hw, opt, t, f, first)
  {
    hide Inv, PlanStep, GoodPlan, Waiting, Pinning', SyncDone, Quiet, TidSet, WindowDone, PlanResult, Computed;
    StartRecords(hw, opt, s, f.input);
    var u := Numbered(s);
    WindowPlanCase(hw, opt, s, t, r, f.edges, f.ranked, f.now);
    var plan := PlanResultPlan(hw, opt, u, f.edges, t, r.value.planConfirmed);
    QuietSame(s, u, f.input);
    FirstPlanned(hw, opt, u, t, f.input, plan);
    hide Planned;
    AfterPlanning(hw, opt, u, Planned(u, plan), t, f.input, 1, plan, r.value.planConfirmed);
    PlanKeepsBook(hw, opt, u, plan, t, r.value.planConfirmed);
    assert FirstPlan(hw, opt, t, f, plan);
  }

  lemma WindowPlanCase(hw: Machine, opt: Options, s: State, t: State, r: Result<Proposal>, edges: seq<Edge>, ranked: seq<int>, now: nat)
    requires WindowDone(hw, opt, s, t, r, edges, ranked, now) && Numbered(s).phase == NodePlanning && r.Ok?
    ensures PlanResult(hw, opt, Numbered(s), edges, t, r.value.planConfirmed)
  {
    hide PlanResult, PlanPromise, Stuck, PinResult, OptimizeResult, Budget, Roomy, RoundOf;
  }

  lemma QuietSame(s: State, u: State, input: seq<Thread>)
    requires s.book == u.book
    ensures Quiet(s, input) <==> Quiet(u, input)
  {
  }

  lemma StartRecords(hw: Machine, opt: Options, s: State, input: seq<Thread>)
    requires SyncDone(hw, opt, Initial(), s, input) && Inv(hw, opt, s) && input != []
    ensures Quiet(s, input) && s.book.threads.Keys == TidSet(input) && s.book.threads != map[]
    ensures s.phase == Uninitialized && !s.replan && s.place.pinned == {} && s.plan.previous == map[] && s.outstanding.None?
  {
    hide *;
    NumberedCore(hw, opt, s);
    CoreParts(hw, opt, s);
    CorePinned(hw, opt, s);
    SyncStarts(hw, opt, s, input);
    RecordsQuiet(s, input);
    assert input[0].id.tid in s.book.threads;
    forall t | t in s.book.threads.Keys
      ensures t !in s.place.pinned
    {
      var i := IndexOf(input, t);
      assert input[i].id.tid !in s.place.placement.Keys;
    }
    Inhabited(s.place.pinned);
  }

  /** What the first synchronisation leaves. */
  lemma SyncStarts(hw: Machine, opt: Options, s: State, input: seq<Thread>)
    requires SyncDone(hw, opt, Initial(), s, input)
    ensures s.book.threads.Keys == TidSet(input) && s.outstanding.None?
    ensures forall i :: 0 <= i < |input| ==> input[i].id.tid in s.book.threads && s.book.threads[input[i].id.tid] == input[i]
    ensures forall i :: 0 <= i < |input| ==> input[i].id.tid !in s.place.placement
    ensures s.phase == Uninitialized && !s.replan && s.plan.previous == map[]
  {
    hide PhaseFollows, DropsExactly, Quiet, TidSet;
    assert forall i :: 0 <= i < |input| ==> !Known(Initial(), input[i]);
    forall t
      ensures t !in s.plan.previous
    {
    }
  }

  lemma IndexOf(input: seq<Thread>, t: int) returns (i: nat)
    requires t in TidSet(input)
    ensures i < |input| && input[i].id.tid == t
  {
    var th :| th in input && th.id.tid == t;
    i :| 0 <= i < |input| && input[i] == th;
  }

  /** A later planning window repeats the plan of the first, whatever it computes itself. */
  lemma LaterWindow(hw: Machine, opt: Options, s0: State, s: State, t: State, r: Result<Proposal>, f: Feed, k: nat, first: map<int, int>)
    requires Waiting(s0, f.input, k, first) && SyncDone(hw, opt, s0, s, f.input)
    requires WindowDone(hw, opt, s, t, r, f.edges, f.ranked, f.now) && r.Ok?
    ensures Underway(opt, t, f.input, k + 1, first)
  {
    hide PlanStep, GoodPlan, Pinning', WindowDone, PlanResult, Computed;
    StaysWaiting(hw, opt, s0, s, f.input, k, first);
    hide SyncDone, Quiet, TidSet;
    var u := Numbered(s);
    WindowPlanCase(hw, opt, s, t, r, f.edges, f.ranked, f.now);
    var plan := PlanResultPlan(hw, opt, u, f.edges, t, r.value.planConfirmed);
    var w := Planned(u, plan);
    QuietSame(u, w, f.input);
    AfterPlanning(hw, opt, u, w, t, f.input, k + 1, first, r.value.planConfirmed);
  }

  lemma SomeThread(s: State, input: seq<Thread>)
    requires s.book.threads.Keys == TidSet(input) && input != []
    ensures s.book.threads != map[]
  {
    assert input[0] in input;
    assert input[0].id.tid in s.book.threads;
  }

  lemma StaysWaiting(hw: Machine, opt: Options, s0: State, s: State, input: seq<Thread>, k: nat, first: map<int, int>)
    requires Waiting(s0, input, k, first) && SyncDone(hw, opt, s0, s, input)
    ensures Waiting(Numbered(s), input, k, first)
  {
    assert s.book.threads.Keys == TidSet(input);
    assert s.book.identities == s0.book.identities;
    assert Quiet(s, input) && Quiet(Numbered(s), input);
    SomeThread(s, input);
    hide Quiet, TidSet, Known, TargetsEffective;
  }

  /** A pinning window proposes the next batch of the same pending threads. */
  lemma PinningWindow(hw: Machine, opt: Options, s0: State, s: State, t: State, r: Result<Proposal>, f: Feed, m: nat)
    requires Pinning'(s0, f.input, m) && m > 0 && SyncDone(hw, opt, s0, s, f.input) && Inv(hw, opt, s0) && Inv(hw, opt, s)
    requires WindowDone(hw, opt, s, t, r, f.edges, f.ranked, f.now) && r.Ok?
    requires Budget(|TidSet(f.input)|, opt.initialRatio) > 0
    ensures Pinning'(Numbered(s), f.input, m) && PinResult(hw, opt, Numbered(s), t, r.value)
    ensures r.value.budget == Budget(|TidSet(f.input)|, opt.initialRatio)
  {
    hide Inv, PinResult, WindowDone, Budget;
    StaysPinning(hw, opt, s0, s, f.input, m);
    hide SyncDone, Quiet, TidSet, PendingOf;
    WindowPinCase(hw, opt, s, t, r, f.edges, f.ranked, f.now);
    assert |s.book.threads| == |s.book.threads.Keys|;
  }

  lemma WindowPinCase(hw: Machine, opt: Options, s: State, t: State, r: Result<Proposal>, edges: seq<Edge>, ranked: seq<int>, now: nat)
    requires WindowDone(hw, opt, s, t, r, edges, ranked, now) && Numbered(s).phase == InitialPinning && r.Ok?
    requires Budget(|s.book.threads|, opt.initialRatio) > 0
    ensures PinResult(hw, opt, Numbered(s), t, r.value) && r.value.budget == Budget(|s.book.threads|, opt.initialRatio)
  {
    hide PlanResult, PlanPromise, Stuck, PinResult, OptimizeResult, Budget, Roomy, RoundOf;
  }

  lemma StaysPinning(hw: Machine, opt: Options, s0: State, s: State, input: seq<Thread>, m: nat)
    requires Pinning'(s0, input, m) && m > 0 && SyncDone(hw, opt, s0, s, input) && Inv(hw, opt, s)
    requires Inv(hw, opt, s0)
    ensures Pinning'(Numbered(s), input, m) && s.phase == InitialPinning && s.outstanding.None?
  {
    hide Core, PendingSet, TargetsEffective, OnTarget, NodeMap;
    NumberedCore(hw, opt, s0);
    CorePinned(hw, opt, s0);
    assert s.book.threads.Keys == s0.book.threads.Keys == TidSet(input);
    assert PendingOf(s) == PendingOf(s0);
    assert Quiet(s, input) && Quiet(Numbered(s), input);
    assert s.place == s0.place && s.plan == s0.plan;
    EffectiveIffNothingPending(s);
    SomeThread(s, input);
    hide Quiet, TidSet, Known;
  }

  // ----- the whole start-up -----

  lemma StableAt(feed: nat -> Feed, k: nat)
    requires Stable(feed)
    ensures UniqueTids(feed(k).input) && Distinct(feed(k).ranked) && IdSet(feed(k).input) == IdSet(feed(0).input)
    ensures feed(0).input != []
  {
    hide UniqueTids, Distinct, IdSet;
  }

  lemma SameIds(a: seq<Thread>, b: seq<Thread>)
    requires IdSet(a) == IdSet(b)
    ensures TidSet(a) == TidSet(b) && (a != [] ==> b != [])
  {
    forall t
      ensures t in TidSet(a) <==> t in TidSet(b)
    {
      if t in TidSet(a) {
        var o :| o in a && o.id.tid == t;
        assert o.id in IdSet(b);
      }
      if t in TidSet(b) {
        var o :| o in b && o.id.tid == t;
        assert o.id in IdSet(a);
      }
    }
    if a != [] {
      assert a[0] in a;
      assert a[0].id in IdSet(b);
    }
  }

  lemma WaitingShift(s: State, a: seq<Thread>, b: seq<Thread>, k: nat, first: map<int, int>)
    requires Waiting(s, a, k, first) && IdSet(a) == IdSet(b)
    ensures Waiting(s, b, k, first)
  {
    hide Quiet, TidSet, IdSet;
    SameIds(a, b);
    QuietEverywhere(s, a, b);
  }

  lemma PinningShift(s: State, a: seq<Thread>, b: seq<Thread>, m: nat)
    requires Pinning'(s, a, m) && IdSet(a) == IdSet(b)
    ensures Pinning'(s, b, m)
  {
    hide Quiet, TidSet, IdSet, PendingOf;
    SameIds(a, b);
    QuietEverywhere(s, a, b);
  }

  lemma UnderwayShift(opt: Options, s: State, a: seq<Thread>, b: seq<Thread>, k: nat, first: map<int, int>)
    requires Underway(opt, s, a, k, first) && IdSet(a) == IdSet(b)
    ensures Underway(opt, s, b, k, first)
  {
    hide Waiting, Pinning', TidSet, IdSet;
    SameIds(a, b);
    if k < opt.planConfirmations {
      WaitingShift(s, a, b, k, first);
    } else {
      PinningShift(s, a, b, |TidSet(a)|);
    }
  }

  /** One planning window of a start-up. */
  lemma PlanningStep(hw: Machine, opt: Options, s0: State, t: State, r: Result<Proposal>, f: Feed, k: nat, first: map<int, int>)
    returns (plan: map<int, int>)
    requires Proposed(hw, opt, s0, t, r, f.input, f.edges, f.ranked, f.now) && r.Ok? && f.input != []
    requires k == 0 ==> s0 == Initial()
    requires k > 0 ==> Underway(opt, s0, f.input, k, first) && k < opt.planConfirmations
    ensures Underway(opt, t, f.input, k + 1, plan) && (if k > 0 then plan == first else FirstPlan(hw, opt, t, f, plan))
  {
    hide Inv, SyncDone, WindowDone, Waiting, Pinning', Computed;
    var s :| Inv(hw, opt, s) && SyncDone(hw, opt, s0, s, f.input) && WindowDone(hw, opt, s, t, r, f.edges, f.ranked, f.now);
    if k == 0 {
      FirstWindow(hw, opt, s, t, r, f);
      plan :| FirstPlan(hw, opt, t, f, plan);
    } else {
      LaterWindow(hw, opt, s0, s, t, r, f, k, first);
      plan := first;
    }
  }

  /** The state after the records were brought up to date. */
  lemma Between(hw: Machine, opt: Options, s0: State, t: State, r: Result<Proposal>, f: Feed) returns (s: State)
    requires Proposed(hw, opt, s0, t, r, f.input, f.edges, f.ranked, f.now)
    ensures Inv(hw, opt, s) && SyncDone(hw, opt, s0, s, f.input) && WindowDone(hw, opt, s, t, r, f.edges, f.ranked, f.now)
    ensures s.outstanding.None?
  {
    hide Inv, WindowDone, PhaseFollows, DropsExactly, TidSet, Known, Quiet;
    s :| Inv(hw, opt, s) && SyncDone(hw, opt, s0, s, f.input) && WindowDone(hw, opt, s, t, r, f.edges, f.ranked, f.now);
  }

  /** One pinning window of a start-up, up to its commit. */
  lemma PinningStep(hw: Machine, opt: Options, s0: State, t: State, r: Result<Proposal>, f: Feed, m: nat)
    requires Proposed(hw, opt, s0, t, r, f.input, f.edges, f.ranked, f.now) && r.Ok? && Inv(hw, opt, s0) && Inv(hw, opt, t)
    requires Pinning'(s0, f.input, m) && m > 0
    requires Budget(|TidSet(f.input)|, opt.initialRatio) > 0
    ensures Follows(t, r.value, {}) && t.outstanding == Some(r.value)
    ensures var b := Budget(|TidSet(f.input)|, opt.initialRatio); var c := Committed(t, r.value, f.now, {});
      && (m <= b ==> c.phase == Optimizing && c.place.pinned == c.book.threads.Keys && c.book.threads != map[])
      && (m > b ==> Pinning'(c, f.input, m - b))
  {
    hide *;
    var b := Budget(|TidSet(f.input)|, opt.initialRatio);
    var s := Between(hw, opt, s0, t, r, f);
    PinningWindow(hw, opt, s0, s, t, r, f, m);
    var u := Numbered(s);
    PinningFields(u, f.input, m);
    NumberedPhase(hw, opt, s);
    var batch := PinResultBatch(hw, opt, u, t, r.value);
    BatchCount(hw, u, t, r.value, batch, m, b);
    PinCommitProgress(hw, opt, u, t, r.value, batch, f.now);
    PinFollows(hw, opt, u, t, r.value, batch);
    if m > b {
      PinningAgain(u, Committed(t, r.value, f.now, {}), f.input, m, b);
    } else {
      SomeThread(u, f.input);
    }
  }

  lemma WindowThrows(hw: Machine, opt: Options, s: State, t: State, r: Result<Proposal>, edges: seq<Edge>, ranked: seq<int>, now: nat)
    requires WindowDone(hw, opt, s, t, r, edges, ranked, now) && r.Err?
    ensures Numbered(s).phase == NodePlanning ==> t == Numbered(s) && exists at, n :: Stuck(RoundOf(hw, opt, t.book, edges), at, n)
    ensures Numbered(s).phase == InitialPinning ==> !Roomy(hw, opt, |s.book.threads|)
  {
    hide PlanResult, PlanPromise, Stuck, PinResult, OptimizeResult, Budget, Roomy, RoundOf;
  }

  /** A planning window of a start-up throws only because a node cannot reach its floor. */
  lemma PlanningThrows(hw: Machine, opt: Options, s0: State, t: State, r: Result<Proposal>, f: Feed, k: nat, first: map<int, int>)
    requires Proposed(hw, opt, s0, t, r, f.input, f.edges, f.ranked, f.now) && r.Err? && f.input != []
    requires k == 0 ==> s0 == Initial()
    requires k > 0 ==> Underway(opt, s0, f.input, k, first) && k < opt.planConfirmations
    ensures t.book.threads.Keys == TidSet(f.input) && exists at, n :: Stuck(RoundOf(hw, opt, t.book, f.edges), at, n)
  {
    hide Inv, SyncDone, WindowDone, Waiting, Pinning', Stuck, RoundOf, Quiet, TidSet;
    var s :| Inv(hw, opt, s) && SyncDone(hw, opt, s0, s, f.input) && WindowDone(hw, opt, s, t, r, f.edges, f.ranked, f.now);
    WindowThrows(hw, opt, s, t, r, f.edges, f.ranked, f.now);
    if k == 0 {
      StartRecords(hw, opt, s, f.input);
    } else {
      StaysWaiting(hw, opt, s0, s, f.input, k, first);
      WaitingFields(Numbered(s), f.input, k, first);
    }
  }

  lemma WaitingFields(s: State, input: seq<Thread>, k: nat, first: map<int, int>)
    requires Waiting(s, input, k, first)
    ensures s.phase == NodePlanning && s.book.threads.Keys == TidSet(input)
  {
    hide Quiet, TidSet;
  }

  /** A pinning window of a start-up throws only because there are more threads than slots. */
  lemma PinningThrows(hw: Machine, opt: Options, s0: State, t: State, r: Result<Proposal>, f: Feed, m: nat)
    requires Proposed(hw, opt, s0, t, r, f.input, f.edges, f.ranked, f.now) && r.Err? && Inv(hw, opt, s0)
    requires Pinning'(s0, f.input, m) && m > 0
    ensures !Roomy(hw, opt, |TidSet(f.input)|)
  {
    hide Inv, SyncDone, WindowDone, Pinning', Roomy, Quiet, TidSet;
    var s :| Inv(hw, opt, s) && SyncDone(hw, opt, s0, s, f.input) && WindowDone(hw, opt, s, t, r, f.edges, f.ranked, f.now);
    WindowThrows(hw, opt, s, t, r, f.edges, f.ranked, f.now);
    StaysPinning(hw, opt, s0, s, f.input, m);
    PinningFields(Numbered(s), f.input, m);
    assert |s.book.threads| == |s.book.threads.Keys|;
  }

  lemma PinningFields(s: State, input: seq<Thread>, m: nat)
    requires Pinning'(s, input, m)
    ensures s.phase == InitialPinning && s.outstanding.None? && |PendingOf(s)| == m
    ensures s.book.threads.Keys == TidSet(input) && input != []
  {
    hide Quiet, TidSet, PendingOf;
  }

  lemma NumberedPhase(hw: Machine, opt: Options, s: State)
    requires Inv(hw, opt, s) && s.outstanding.None?
    ensures Inv(hw, opt, Numbered(s))
  {
    hide Inv;
    NumberedInv(hw, opt, s, Numbered(s).phase);
  }

  lemma BatchCount(hw: Machine, u: State, t: State, p: Proposal, batch: seq<int>, m: nat, b: nat)
    requires PinStep(hw, u, t, p, batch) && |PendingOf(u)| == m && p.budget == b && m > 0 && b > 0
    ensures |batch| == (if m < b then m else b) && p.ready
  {
    hide PendingOf, NodeMap, WithBatch, Targets.For;
  }

  lemma PinningAgain(u: State, c: State, input: seq<Thread>, m: nat, b: nat)
    requires Pinning'(u, input, m) && c.phase == InitialPinning && c.outstanding.None? && c.book == u.book
    requires m > b && |PendingOf(c)| == m - b
    ensures Pinning'(c, input, m - b)
  {
    QuietSame(u, c, input);
    hide Quiet, TidSet, PendingOf;
  }

  /** The number of batches of size `b` that `n` threads need. */
  function Batches(n: nat, b: nat): nat
    requires b > 0
  {
    if n == 0 then 0 else 1 + Batches(if n < b then 0 else n - b, b)
  }

  /** That is n / b, rounded up. */
  lemma {:induction false} BatchesRoundUp(n: nat, b: nat)
    requires b > 0
    ensures n <= Batches(n, b) * b < n + b
  {
    if n > 0 {
      var rest := if n < b then 0 else n - b;
      BatchesRoundUp(rest, b);
      assert (1 + Batches(rest, b)) * b == b + Batches(rest, b) * b;
    }
  }
}
