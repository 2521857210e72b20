/** Whole runs of the incremental solver: the slot cap over every run that follows the
runtime's protocol, what the confirmation counts of such a run mean, and how long a start-up
takes. */
module SolverRuns {
  import opened Lists
  import opened Counting
  import opened Topology
  import opened Threads
  import opened NodePlanner
  import opened Pinning
  import opened Optimizer
  import opened SolverState
  import opened Admission
  import opened Windows
  import opened IncrementalSolver
  import opened Protocol
  import opened StartUp

  // ----- every run -----

  /** One interaction with the solver.  A commit names the threads that the actuator found
  alive; the others are removed first, as src/runtime.cpp:1638-1643 does. */
  datatype Step =
    | Proposes(input: seq<Thread>, edges: seq<Edge>, ranked: seq<int>)
    | Commits(alive: set<int>)
    | Discards
    | Drops(tid: int)
    | Resets

  predicate Sensible(step: Step) {
    step.Proposes? ==> UniqueTids(step.input) && Distinct(step.ranked)
  }

  /** The threads of a batch that are committed: alive and still managed. */
  function Alive(s: State, p: Proposal, alive: set<int>): set<int> {
    set t | t in TidsOf(p.actions) && t in alive && t in s.book.threads
  }

  /** What one interaction makes of a state. */
  ghost predicate Advances(hw: Machine, opt: Options, s: State, step: Step, now: nat, t: State) {
    match step
    case Proposes(input, edges, ranked) =>
      if s.outstanding.Some? then t == s else exists r :: Proposed(hw, opt, s, t, r, input, edges, ranked, now)
    case Commits(alive) =>
      if s.outstanding.None? then t == s
      else
        var p := s.outstanding.value;
        t == Concluded(s, p, Alive(s, p, alive), TidsOf(p.actions) - Alive(s, p, alive), now)
    case Discards => t == if s.outstanding.Some? then Discarded(s, s.outstanding.value) else s
    case Drops(tid) => t == Removed(s, tid)
    case Resets => t == Initial()
  }

  /** The states that a reset solver goes through. */
  ghost predicate Trace(hw: Machine, opt: Options, script: seq<Step>, clock: seq<nat>, states: seq<State>, n: nat) {
    && n <= |script| == |clock| && |states| == n + 1 && states[0] == Initial()
    && (forall i :: 0 <= i < n ==> Advances(hw, opt, states[i], script[i], clock[i], states[i + 1]))
    && (forall i :: 0 <= i <= n ==> Inv(hw, opt, states[i]))
  }

  lemma TraceMore(hw: Machine, opt: Options, script: seq<Step>, clock: seq<nat>, states: seq<State>, n: nat, t: State)
    requires Trace(hw, opt, script, clock, states, n) && n < |script|
    requires Advances(hw, opt, states[n], script[n], clock[n], t) && Inv(hw, opt, t)
    ensures Trace(hw, opt, script, clock, states + [t], n + 1)
  {
    hide Advances, Inv;
  }

  /** Removes the threads of an outstanding batch that are gone, then commits the rest. */
  method CommitAlive(solver: Solver, alive: set<int>, now: nat)
    requires solver.Valid() && solver.history.clock <= now
    modifies solver
    ensures solver.Valid() && solver.history.clock <= now
    ensures Advances(solver.hw, solver.opt, old(solver.S()), Commits(alive), now, solver.S())
  {
    hide Inv, Concluded, TidsOf;
    if solver.outstanding.Some? {
      var p := solver.outstanding.value;
      var committed := set t | t in TidsOf(p.actions) && t in alive && t in solver.book.threads;
      assert committed == Alive(solver.S(), p, alive);
      assert committed + (TidsOf(p.actions) - committed) == TidsOf(p.actions);
      Conclude(solver, p, committed, TidsOf(p.actions) - committed, now);
    }
  }

  method TakeStep(solver: Solver, step: Step, now: nat)
    requires solver.Valid() && Sensible(step) && solver.history.clock <= now
    modifies solver
    ensures solver.Valid() && solver.history.clock <= now
    ensures Advances(solver.hw, solver.opt, old(solver.S()), step, now, solver.S())
  {
    hide Inv, Concluded, Proposed, UniqueTids, Distinct, Alive;
    match step
    case Proposes(input, edges, ranked) =>
      var r := solver.Propose(input, edges, ranked, now);
    case Commits(alive) =>
      CommitAlive(solver, alive, now);
    case Discards =>
      if solver.outstanding.Some? {
        solver.Discard(solver.outstanding.value);
      }
    case Drops(tid) =>
      solver.RemoveThread(tid);
    case Resets =>
      solver.Reset();
      assert solver.history == solver.S().history;
  }

  /** However a run goes, no CPU ever holds more placed threads than a fixed slot cap, in any state
  of the run. */
  method AnyRun(hw: Machine, opt: Options, script: seq<Step>, clock: seq<nat>) returns (solver: Solver, ghost states: seq<State>)
    requires opt.Valid() && |clock| == |script|
    requires forall i :: 0 <= i < |script| ==> Sensible(script[i])
    requires forall i, j :: 0 <= i < j < |clock| ==> clock[i] <= clock[j]
    ensures fresh(solver) && solver.Valid() && solver.hw == hw && solver.opt == opt
    ensures Trace(hw, opt, script, clock, states, |script|) && states[|script|] == solver.S()
    ensures opt.maxPerCpu > 0 ==> forall i, c :: 0 <= i < |states| ==> Count(states[i].place.placement, c) <= opt.maxPerCpu
  {
    hide Inv, Advances, Sensible;
    solver := new Solver(hw, opt);
    states := [solver.S()];
    for i := 0 to |script|
      invariant fresh(solver) && solver.Valid() && solver.hw == hw && solver.opt == opt
      invariant i < |clock| ==> solver.history.clock <= clock[i]
      invariant i > 0 ==> solver.history.clock <= clock[i - 1]
      invariant Trace(hw, opt, script, clock, states, i) && states[i] == solver.S()
    {
      TakeStep(solver, script[i], clock[i]);
      TraceMore(hw, opt, script, clock, states, i, solver.S());
      states := states + [solver.S()];
    }
    if opt.maxPerCpu > 0 {
      forall i | 0 <= i < |states|
        ensures forall c :: Count(states[i].place.placement, c) <= opt.maxPerCpu
      {
        CapHolds(hw, opt, states[i]);
      }
    }
  }

  lemma CapHolds(hw: Machine, opt: Options, s: State)
    requires Inv(hw, opt, s) && opt.maxPerCpu > 0
    ensures forall c :: Count(s.place.placement, c) <= opt.maxPerCpu
  {
    hide Records, Placed, Plans, Moves, Streaks, Pending, NodeMap, Targets.For;
  }

  // ----- what a confirmed move means in a run -----

  /** In that step the threads of a window were evaluated, with exactly those candidates. */
  ghost predicate CandidatesAt(hw: Machine, opt: Options, step: Step, now: nat, s: State, keys: set<Key>) {
    step.Proposes? && exists u, scene, potentials ::
      && Inv(hw, opt, u) && SyncDone(hw, opt, s, u, step.input)
      && Evaluates(hw, opt, Numbered(u), step.edges, step.ranked, now, scene, potentials) && keys == KeysOf(potentials)
  }

  /** `steps` are the steps of the run that evaluated candidates since the last reset, and the
  log of the solver holds the candidates of each. */
  ghost predicate LoggedBy(hw: Machine, opt: Options, script: seq<Step>, clock: seq<nat>, states: seq<State>, n: nat, steps: seq<nat>)
    requires n <= |script| == |clock| && n < |states|
  {
    var evals := states[n].history.evals;
    && |steps| == |evals|
    && (forall k :: 0 <= k < |steps| ==>
          steps[k] < n && CandidatesAt(hw, opt, script[steps[k]], clock[steps[k]], states[steps[k]], evals[k]))
    && (forall k, l :: 0 <= k < l < |steps| ==> steps[k] < steps[l])
    && (forall j :: 0 <= j < n && steps != [] && steps[0] < j && j !in steps ==> states[j + 1].history.evals == states[j].history.evals)
  }

  /** What a window does to the log: nothing, or it adds the candidates of its evaluation. */
  lemma ProposalLogs(hw: Machine, opt: Options, s: State, step: Step, now: nat, t: State)
    requires step.Proposes? && Advances(hw, opt, s, step, now, t)
    ensures t.history.evals == s.history.evals
         || exists keys :: t.history.evals == s.history.evals + [keys] && CandidatesAt(hw, opt, step, now, s, keys)
  {
    hide Inv, SyncDone, WindowDone, Evaluates, KeysOf;
    if s.outstanding.None? {
      var r :| Proposed(hw, opt, s, t, r, step.input, step.edges, step.ranked, now);
      var u :| Inv(hw, opt, u) && SyncDone(hw, opt, s, u, step.input) && WindowDone(hw, opt, u, t, r, step.edges, step.ranked, now);
      SyncClock(hw, opt, s, u, step.input);
      if t.history.evals != u.history.evals {
        var scene, potentials := WindowLogs(hw, opt, u, t, r, step.edges, step.ranked, now);
        assert CandidatesAt(hw, opt, step, now, s, KeysOf(potentials));
      }
    }
  }

  lemma WindowLogs(hw: Machine, opt: Options, u: State, t: State, r: Result<Proposal>, edges: seq<Edge>, ranked: seq<int>, now: nat)
    returns (scene: Scene, potentials: seq<Potential>)
    requires WindowDone(hw, opt, u, t, r, edges, ranked, now) && t.history.evals != u.history.evals
    ensures Evaluates(hw, opt, Numbered(u), edges, ranked, now, scene, potentials)
    ensures t.history.evals == u.history.evals + [KeysOf(potentials)]
  {
    hide PlanPromise, Stuck, RoundOf, Budget, Roomy, PlanResult, PinResult, OptimizeResult;
    var v := Numbered(u);
    match v.phase
    case Uninitialized =>
      assert false;
    case NodePlanning =>
      if r.Ok? {
        PlanLogs(hw, opt, v, edges, t, r.value.planConfirmed);
      }
      assert false;
    case InitialPinning =>
      if r.Ok? && Budget(|u.book.threads|, opt.initialRatio) > 0 {
        PinLogs(hw, opt, v, t, r.value);
      }
      assert false;
    case Optimizing =>
      scene, potentials := OptimizeLogs(hw, opt, v, t, r.value, edges, ranked, now);
  }

  lemma PlanLogs(hw: Machine, opt: Options, u: State, edges: seq<Edge>, t: State, confirmed: bool)
    requires PlanResult(hw, opt, u, edges, t, confirmed)
    ensures t.history.evals == u.history.evals && t.history.events == u.history.events
  {
    hide GoodPlan, GoodCpus, PlanResult, Computed;
    var plan := PlanResultPlan(hw, opt, u, edges, t, confirmed);
  }

  lemma PinLogs(hw: Machine, opt: Options, u: State, t: State, p: Proposal)
    requires PinResult(hw, opt, u, t, p)
    ensures t.history.evals == u.history.evals && t.history.events == u.history.events
  {
    hide PendingOf, NodeMap, Targets.For, PinActions, PinResult, Repaired, FirstPending, PinRank;
    var batch := PinResultBatch(hw, opt, u, t, p);
  }

  lemma OptimizeLogs(hw: Machine, opt: Options, u: State, t: State, p: Proposal, edges: seq<Edge>, ranked: seq<int>, now: nat)
    returns (scene: Scene, potentials: seq<Potential>)
    requires OptimizeResult(hw, opt, u, t, p, edges, ranked, now)
    ensures Evaluates(hw, opt, u, edges, ranked, now, scene, potentials)
    ensures t.history.evals == u.history.evals + [KeysOf(potentials)]
  {
    hide Evaluates, SlotCap, MakeBoard, SlotViolation, OverloadOf, Streak, Rested, KeyOf, Flatten, After, Chosen, KeysOf, WellFormed;
    hide NextConfirmations;
    scene, potentials :| OptimizeStep(hw, opt, u, t, p, edges, ranked, now, scene, potentials);
  }

  /** Only proposals and resets touch the log. */
  lemma OtherLogs(hw: Machine, opt: Options, s: State, step: Step, now: nat, t: State)
    requires !step.Proposes? && Advances(hw, opt, s, step, now, t)
    ensures t.history.evals == s.history.evals || t.history.evals == []
  {
    hide TidsOf, Alive;
    if step.Commits? && s.outstanding.Some? {
      var p := s.outstanding.value;
      var gone := TidsOf(p.actions) - Alive(s, p, step.alive);
      RemovedAllFrame(s, gone);
      CommitManyFrame(RemovedAll(s, gone), p.actions, Alive(s, p, step.alive), now);
      hide RemovedAll, CommitMany, TargetsEffective;
    }
  }

  lemma LoggedStart(hw: Machine, opt: Options, script: seq<Step>, clock: seq<nat>, states: seq<State>, n: nat)
    requires n <= |script| == |clock| && n < |states| && states[n].history.evals == []
    ensures LoggedBy(hw, opt, script, clock, states, n, [])
  {
  }

  lemma LoggedSame(hw: Machine, opt: Options, script: seq<Step>, clock: seq<nat>, states: seq<State>, n: nat, steps: seq<nat>)
    requires n < |script| == |clock| && n + 1 < |states| && LoggedBy(hw, opt, script, clock, states, n, steps)
    requires states[n + 1].history.evals == states[n].history.evals
    ensures LoggedBy(hw, opt, script, clock, states, n + 1, steps)
  {
    hide CandidatesAt;
  }

  lemma LoggedMore(hw: Machine, opt: Options, script: seq<Step>, clock: seq<nat>, states: seq<State>, n: nat, steps: seq<nat>, keys: set<Key>)
    requires n < |script| == |clock| && n + 1 < |states| && LoggedBy(hw, opt, script, clock, states, n, steps)
    requires states[n + 1].history.evals == states[n].history.evals + [keys] && CandidatesAt(hw, opt, script[n], clock[n], states[n], keys)
    ensures LoggedBy(hw, opt, script, clock, states, n + 1, steps + [n])
  {
    hide CandidatesAt;
    var more := steps + [n];
    assert more[|steps|] == n;
    forall j | 0 <= j < n + 1 && more[0] < j && j !in more
      ensures states[j + 1].history.evals == states[j].history.evals
    {
      assert j != n;
      assert j !in steps;
    }
  }

  lemma LoggedStep(hw: Machine, opt: Options, script: seq<Step>, clock: seq<nat>, states: seq<State>, j: nat, before: seq<nat>)
    returns (steps: seq<nat>)
    requires j < |script| == |clock| && j + 1 < |states| && LoggedBy(hw, opt, script, clock, states, j, before)
    requires Advances(hw, opt, states[j], script[j], clock[j], states[j + 1])
    ensures LoggedBy(hw, opt, script, clock, states, j + 1, steps)
  {
    hide LoggedBy, Advances, CandidatesAt;
    if script[j].Proposes? {
      ProposalLogs(hw, opt, states[j], script[j], clock[j], states[j + 1]);
    } else {
      OtherLogs(hw, opt, states[j], script[j], clock[j], states[j + 1]);
    }
    var old', now := states[j].history.evals, states[j + 1].history.evals;
    if now == old' {
      LoggedSame(hw, opt, script, clock, states, j, before);
      steps := before;
    } else if now == [] {
      LoggedStart(hw, opt, script, clock, states, j + 1);
      steps := [];
    } else {
      var keys :| now == old' + [keys] && CandidatesAt(hw, opt, script[j], clock[j], states[j], keys);
      LoggedMore(hw, opt, script, clock, states, j, before, keys);
      steps := before + [j];
    }
  }

  /** The log of a run is what its evaluations offered. */
  lemma {:induction false} RunLogged(hw: Machine, opt: Options, script: seq<Step>, clock: seq<nat>, states: seq<State>, n: nat, k: nat)
    returns (steps: seq<nat>)
    requires Trace(hw, opt, script, clock, states, n) && k <= n
    ensures LoggedBy(hw, opt, script, clock, states, k, steps)
    decreases k
  {
    hide LoggedBy, Advances, Inv;
    if k == 0 {
      LoggedStart(hw, opt, script, clock, states, 0);
      steps := [];
    } else {
      var before := RunLogged(hw, opt, script, clock, states, n, k - 1);
      steps := LoggedStep(hw, opt, script, clock, states, k - 1, before);
    }
  }

  /** In any run, a move that is not an emergency is proposed only if it was a candidate in each of
  the last `confirmations` evaluations of the run, the present one included. */
  lemma CalmMovesWereCandidates(hw: Machine, opt: Options, script: seq<Step>, clock: seq<nat>, states: seq<State>, n: nat, i: nat,
                                u: State, p: Proposal, scene: Scene, potentials: seq<Potential>, q: Potential)
    returns (steps: seq<nat>)
    requires Trace(hw, opt, script, clock, states, n) && i < n && script[i].Proposes?
    requires OptimizeStep(hw, opt, u, states[i + 1], p, script[i].edges, script[i].ranked, clock[i], scene, potentials)
    requires q in Chosen(opt, u, scene, potentials, p.budget) && !q.emergency
    ensures LoggedBy(hw, opt, script, clock, states, i + 1, steps) && opt.confirmations <= |steps|
    ensures forall k :: |steps| - opt.confirmations <= k < |steps| ==>
      && CandidatesAt(hw, opt, script[steps[k]], clock[steps[k]], states[steps[k]], states[i + 1].history.evals[k])
      && KeyOf(q.actions) in states[i + 1].history.evals[k]
  {
    hide Trace, LoggedBy, Advances, OptimizeStep, Chosen, CandidatesAt, Streak, KeyOf;
    steps := RunLogged(hw, opt, script, clock, states, n, i + 1);
    TraceSize(hw, opt, script, clock, states, n);
    StepStreak(hw, opt, u, states[i + 1], p, script[i].edges, script[i].ranked, clock[i], scene, potentials, q);
    StreakMeans(states[i + 1].history.evals, KeyOf(q.actions), opt.confirmations);
    LoggedMeans(hw, opt, script, clock, states, i + 1, steps);
  }

  lemma TraceSize(hw: Machine, opt: Options, script: seq<Step>, clock: seq<nat>, states: seq<State>, n: nat)
    requires Trace(hw, opt, script, clock, states, n)
    ensures n <= |script| == |clock| && |states| == n + 1
  {
    hide Advances, Inv;
  }

  lemma StepStreak(hw: Machine, opt: Options, u: State, t: State, p: Proposal, edges: seq<Edge>, ranked: seq<int>, now: nat,
                   scene: Scene, potentials: seq<Potential>, q: Potential)
    requires OptimizeStep(hw, opt, u, t, p, edges, ranked, now, scene, potentials)
    requires q in Chosen(opt, u, scene, potentials, p.budget) && !q.emergency
    ensures Streak(t.history.evals, KeyOf(q.actions)) >= opt.confirmations
  {
    hide Evaluates, SlotCap, MakeBoard, SlotViolation, OverloadOf, Streak, Rested, KeyOf, Flatten, After, Chosen, KeysOf, WellFormed;
    hide NextConfirmations;
  }

  lemma LoggedMeans(hw: Machine, opt: Options, script: seq<Step>, clock: seq<nat>, states: seq<State>, n: nat, steps: seq<nat>)
    requires n <= |script| == |clock| && n < |states| && LoggedBy(hw, opt, script, clock, states, n, steps)
    ensures |steps| == |states[n].history.evals|
    ensures forall k :: 0 <= k < |steps| ==>
      steps[k] < n && CandidatesAt(hw, opt, script[steps[k]], clock[steps[k]], states[steps[k]], states[n].history.evals[k])
  {
    hide CandidatesAt;
  }

  // ----- what dwell means in a run -----

  /** The step commits a move of that thread to another CPU. */
  ghost predicate MovedBy(s: State, step: Step, id: Identity) {
    step.Commits? && s.outstanding.Some? &&
      exists a :: a in s.outstanding.value.actions && a.id == id && a.from != a.to && id.tid in Alive(s, s.outstanding.value, step.alive)
  }

  /** The step ends the records of a thread. */
  ghost predicate DroppedBy(s: State, step: Step, tid: int) {
    match step
    case Proposes(input, _, _) => s.outstanding.None? && tid in Leavers(s, input)
    case Commits(alive) =>
      s.outstanding.Some? && tid in TidsOf(s.outstanding.value.actions) && tid !in Alive(s, s.outstanding.value, alive)
    case Discards => false
    case Drops(t) => t == tid
    case Resets => true
  }

  /** The new events are the moves and the drops of the step. */
  ghost predicate Appends(s: State, step: Step, now: nat, before: seq<Event>, after: seq<Event>) {
    && |before| <= |after| && after[..|before|] == before
    && (forall k :: |before| <= k < |after| ==>
          match after[k]
          case Dropped(t) => DroppedBy(s, step, t)
          case Moved(id, time) => time == now && MovedBy(s, step, id))
  }

  lemma AppendsNothing(s: State, step: Step, now: nat, events: seq<Event>)
    ensures Appends(s, step, now, events, events)
  {
  }

  lemma AppendsMore(s: State, step: Step, now: nat, before: seq<Event>, after: seq<Event>, e: Event)
    requires Appends(s, step, now, before, after)
    requires match e case Dropped(t) => DroppedBy(s, step, t) case Moved(id, time) => time == now && MovedBy(s, step, id)
    ensures Appends(s, step, now, before, after + [e])
  {
    hide DroppedBy, MovedBy;
  }

  lemma {:induction false} RemovalsRecorded(s: State, step: Step, now: nat, u: State, tids: set<int>)
    requires Appends(s, step, now, s.history.events, u.history.events) && forall t :: t in tids ==> DroppedBy(s, step, t)
    ensures Appends(s, step, now, s.history.events, RemovedAll(u, tids).history.events)
    decreases |tids|
  {
    hide Appends, DroppedBy;
    if tids != {} {
      var t := Least(tids);
      AppendsMore(s, step, now, s.history.events, u.history.events, Dropped(t));
      RemovalsRecorded(s, step, now, Removed(u, t), tids - {t});
    }
  }

  lemma {:induction false} MovesRecorded(s: State, step: Step, now: nat, u: State, actions: seq<Action>, committed: set<int>)
    requires Appends(s, step, now, s.history.events, u.history.events)
    requires forall a :: a in actions && IsCommitted(committed, a) && a.from != a.to ==> MovedBy(s, step, a.id)
    ensures Appends(s, step, now, s.history.events, CommitMany(u, actions, committed, now).history.events)
  {
    hide Appends, MovedBy, IsCommitted;
    if actions != [] {
      var n := |actions| - 1;
      var a := actions[n];
      assert a in actions;
      forall b | b in actions[..n] && IsCommitted(committed, b) && b.from != b.to
        ensures MovedBy(s, step, b.id)
      {
        assert b in actions;
      }
      MovesRecorded(s, step, now, u, actions[..n], committed);
      var t := CommitMany(u, actions[..n], committed, now);
      if a.from != a.to && IsCommitted(committed, a) {
        AppendsMore(s, step, now, s.history.events, t.history.events, Moved(a.id, now));
      }
    }
  }

  /** A committed move is the last one on record. */
  lemma {:induction false} MoveOnRecord(u: State, actions: seq<Action>, committed: set<int>, now: nat, a: Action)
    requires a in actions && IsCommitted(committed, a) && a.from != a.to
    ensures LastMove(CommitMany(u, actions, committed, now).history.events, a.id) == Some(now)
  {
    hide IsCommitted, LastMove;
    var n := |actions| - 1;
    var last := actions[n];
    var t := CommitMany(u, actions[..n], committed, now);
    if last != a {
      assert a in actions[..n];
      MoveOnRecord(u, actions[..n], committed, now, a);
    }
    if IsCommitted(committed, last) && last.from != last.to {
      LastMoveMoved(t.history.events, last.id, now, a.id);
    }
  }

  lemma CommitRecords(s: State, step: Step, now: nat)
    requires step.Commits? && s.outstanding.Some?
    ensures var p := s.outstanding.value; var alive := Alive(s, p, step.alive);
      var t := Concluded(s, p, alive, TidsOf(p.actions) - alive, now);
      && Appends(s, step, now, s.history.events, t.history.events)
      && (forall id :: MovedBy(s, step, id) ==> LastMove(t.history.events, id) == Some(now))
  {
    var p := s.outstanding.value;
    var alive := Alive(s, p, step.alive);
    var gone := TidsOf(p.actions) - alive;
    var u := RemovedAll(s, gone);
    AppendsNothing(s, step, now, s.history.events);
    RemovalsRecorded(s, step, now, s, gone);
    RemovedAllFrame(s, gone);
    hide RemovedAll, Appends, LastMove;
    if alive == {} {
      assert forall id :: !MovedBy(s, step, id);
    } else {
      CommitManyFrame(u, p.actions, alive, now);
      MovesRecorded(s, step, now, u, p.actions, alive);
      forall id | MovedBy(s, step, id)
        ensures LastMove(CommitMany(u, p.actions, alive, now).history.events, id) == Some(now)
      {
        var a :| a in p.actions && a.id == id && a.from != a.to && id.tid in alive;
        MoveOnRecord(u, p.actions, alive, now, a);
      }
      hide CommitMany, TargetsEffective;
    }
  }

  lemma WindowKeepsEvents(hw: Machine, opt: Options, u: State, t: State, r: Result<Proposal>, edges: seq<Edge>, ranked: seq<int>, now: nat)
    requires WindowDone(hw, opt, u, t, r, edges, ranked, now)
    ensures t.history.events == u.history.events
  {
    hide PlanPromise, Stuck, RoundOf, Budget, Roomy, PlanResult, PinResult, OptimizeResult;
    var v := Numbered(u);
    match v.phase
    case Uninitialized =>
    case NodePlanning =>
      if r.Ok? {
        PlanLogs(hw, opt, v, edges, t, r.value.planConfirmed);
      }
    case InitialPinning =>
      if r.Ok? && Budget(|u.book.threads|, opt.initialRatio) > 0 {
        PinLogs(hw, opt, v, t, r.value);
      }
    case Optimizing =>
      if r.Ok? && Budget(|u.book.threads|, opt.ratio) > 0 {
        OptimizeKeepsEvents(hw, opt, v, t, r.value, edges, ranked, now);
      }
  }

  lemma OptimizeKeepsEvents(hw: Machine, opt: Options, u: State, t: State, p: Proposal, edges: seq<Edge>, ranked: seq<int>, now: nat)
    requires OptimizeResult(hw, opt, u, t, p, edges, ranked, now)
    ensures t.history.events == u.history.events
  {
    hide Evaluates, SlotCap, MakeBoard, SlotViolation, OverloadOf, Streak, Rested, KeyOf, Flatten, After, Chosen, KeysOf, WellFormed;
    hide NextConfirmations;
    var scene, potentials :| OptimizeStep(hw, opt, u, t, p, edges, ranked, now, scene, potentials);
  }

  lemma SyncRecorded(hw: Machine, opt: Options, s: State, step: Step, now: nat, u: State)
    requires step.Proposes? && s.outstanding.None? && SyncDone(hw, opt, s, u, step.input)
    ensures Appends(s, step, now, s.history.events, u.history.events)
  {
    hide Quiet, Known, TidSet, PhaseFollows, TargetsEffective, Leavers, LatePhase;
  }

  /** Every step but a reset adds to the history exactly its own moves and drops. */
  lemma StepRecords(hw: Machine, opt: Options, s: State, step: Step, now: nat, t: State)
    requires Advances(hw, opt, s, step, now, t) && !step.Resets?
    ensures Appends(s, step, now, s.history.events, t.history.events)
    ensures forall id :: MovedBy(s, step, id) ==> LastMove(t.history.events, id) == Some(now)
  {
    hide Inv, SyncDone, WindowDone, Appends, LastMove, Seated, Usable, TidSet, SlotCap, Concluded, Alive;
    AppendsNothing(s, step, now, s.history.events);
    match step
    case Proposes(input, edges, ranked) =>
      if s.outstanding.None? {
        var r :| Proposed(hw, opt, s, t, r, input, edges, ranked, now);
        var u :| Inv(hw, opt, u) && SyncDone(hw, opt, s, u, input) && WindowDone(hw, opt, u, t, r, edges, ranked, now);
        SyncRecorded(hw, opt, s, step, now, u);
        WindowKeepsEvents(hw, opt, u, t, r, edges, ranked, now);
      }
    case Commits(alive) =>
      if s.outstanding.Some? {
        CommitRecords(s, step, now);
      }
    case Discards =>
    case Drops(tid) =>
      AppendsMore(s, step, now, s.history.events, s.history.events, Dropped(tid));
  }

  /** A move on record stays there, or gives way to a later one, while the thread is not dropped. */
  lemma {:induction false} MoveStays(s: State, step: Step, now: nat, before: seq<Event>, after: seq<Event>, id: Identity, low: nat)
    requires Appends(s, step, now, before, after) && !DroppedBy(s, step, id.tid) && low <= now
    requires LastMove(before, id).Some? && LastMove(before, id).value >= low
    ensures LastMove(after, id).Some? && LastMove(after, id).value >= low
    decreases |after|
  {
    if |after| > |before| {
      var n := |after| - 1;
      assert after[..n][..|before|] == before;
      hide MovedBy, DroppedBy;
      MoveStays(s, step, now, before, after[..n], id, low);
    } else {
      assert after == before;
    }
  }

  /** Between two steps the records of a thread are not ended. */
  ghost predicate Stays(script: seq<Step>, states: seq<State>, from: nat, to: nat, tid: int)
    requires to <= |script| && to <= |states|
  {
    forall l :: from <= l < to ==> !DroppedBy(states[l], script[l], tid)
  }

  lemma {:induction false} MoveRemembered(hw: Machine, opt: Options, script: seq<Step>, clock: seq<nat>, states: seq<State>, n: nat,
                                          j: nat, i: nat, id: Identity)
    requires Trace(hw, opt, script, clock, states, n) && j < i <= n && (forall a, b :: 0 <= a < b < |clock| ==> clock[a] <= clock[b])
    requires MovedBy(states[j], script[j], id) && Stays(script, states, j + 1, i, id.tid)
    ensures LastMove(states[i].history.events, id).Some? && LastMove(states[i].history.events, id).value >= clock[j]
    decreases i
  {
    hide LastMove, MovedBy, DroppedBy, Advances, Inv, Appends;
    var k := i - 1;
    assert Advances(hw, opt, states[k], script[k], clock[k], states[k + 1]);
    if k == j {
      NoReset(states[k], script[k], id);
      StepRecords(hw, opt, states[k], script[k], clock[k], states[k + 1]);
    } else {
      MoveRemembered(hw, opt, script, clock, states, n, j, k, id);
      ResetDrops(states[k], script[k], id.tid);
      StepRecords(hw, opt, states[k], script[k], clock[k], states[k + 1]);
      MoveStays(states[k], script[k], clock[k], states[k].history.events, states[i].history.events, id, clock[j]);
    }
  }

  lemma NoReset(s: State, step: Step, id: Identity)
    requires MovedBy(s, step, id)
    ensures !step.Resets?
  {
  }

  lemma ResetDrops(s: State, step: Step, tid: int)
    requires !DroppedBy(s, step, tid)
    ensures !step.Resets?
  {
  }

  /** In any run, when a move that is no emergency is proposed, every earlier commit that moved the
  same thread is at least a dwell ago, unless the thread was dropped since. */
  lemma CalmMovesAreRested(hw: Machine, opt: Options, script: seq<Step>, clock: seq<nat>, states: seq<State>, n: nat, j: nat, i: nat,
                           u: State, p: Proposal, scene: Scene, potentials: seq<Potential>, q: Potential, a: Action)
    requires Trace(hw, opt, script, clock, states, n) && j < i < n && (forall a, b :: 0 <= a < b < |clock| ==> clock[a] <= clock[b])
    requires script[i].Proposes? && states[i].outstanding.None? && SyncDone(hw, opt, states[i], u, script[i].input)
    requires OptimizeStep(hw, opt, Numbered(u), states[i + 1], p, script[i].edges, script[i].ranked, clock[i], scene, potentials)
    requires q in Chosen(opt, Numbered(u), scene, potentials, p.budget) && a in q.actions && !a.emergency
    requires MovedBy(states[j], script[j], a.id) && Stays(script, states, j + 1, i + 1, a.id.tid)
    ensures clock[i] - clock[j] >= opt.dwell
  {
    hide Trace, MovedBy, DroppedBy, OptimizeStep, SyncDone, LastMove, Appends, Chosen;
    TraceSize(hw, opt, script, clock, states, n);
    MoveRemembered(hw, opt, script, clock, states, n, j, i, a.id);
    SyncRecorded(hw, opt, states[i], script[i], clock[i], u);
    assert !DroppedBy(states[i], script[i], a.id.tid);
    MoveStays(states[i], script[i], clock[i], states[i].history.events, u.history.events, a.id, clock[j]);
    StepRested(hw, opt, Numbered(u), states[i + 1], p, script[i].edges, script[i].ranked, clock[i], scene, potentials, q, a);
  }

  lemma StepRested(hw: Machine, opt: Options, u: State, t: State, p: Proposal, edges: seq<Edge>, ranked: seq<int>, now: nat,
                   scene: Scene, potentials: seq<Potential>, q: Potential, a: Action)
    requires OptimizeStep(hw, opt, u, t, p, edges, ranked, now, scene, potentials)
    requires q in Chosen(opt, u, scene, potentials, p.budget) && a in q.actions && !a.emergency
    ensures Rested(u.history.events, a.id, opt.dwell, now)
  {
    hide Evaluates, SlotCap, MakeBoard, SlotViolation, OverloadOf, Streak, Rested, KeyOf, Flatten, After, Chosen, KeysOf, WellFormed;
    hide NextConfirmations;
  }

  /** Every move in the history of a run was committed by a step of the run, at that time. */
  lemma {:induction false} MovesAreReal(hw: Machine, opt: Options, script: seq<Step>, clock: seq<nat>, states: seq<State>, n: nat, i: nat, k: nat)
    requires Trace(hw, opt, script, clock, states, n) && i <= n && k < |states[i].history.events| && states[i].history.events[k].Moved?
    ensures exists j :: 0 <= j < i && MovedBy(states[j], script[j], states[i].history.events[k].id) && states[i].history.events[k].time == clock[j]
    decreases i
  {
    hide MovedBy, DroppedBy, Advances, Inv;
    if i > 0 {
      var l := i - 1;
      assert Advances(hw, opt, states[l], script[l], clock[l], states[l + 1]);
      ResetEvents(hw, opt, states[l], script[l], clock[l], states[l + 1]);
      StepRecords(hw, opt, states[l], script[l], clock[l], states[l + 1]);
      if k < |states[l].history.events| {
        assert states[l].history.events[k] == states[i].history.events[k];
        MovesAreReal(hw, opt, script, clock, states, n, l, k);
      }
    }
  }

  lemma ResetEvents(hw: Machine, opt: Options, s: State, step: Step, now: nat, t: State)
    requires Advances(hw, opt, s, step, now, t) && t.history.events != []
    ensures !step.Resets?
  {
    hide Concluded, Proposed;
  }

  // ----- start-up -----

  /** One window of the planning phase. */
  ghost predicate PlansOnce(hw: Machine, opt: Options, s: State, t: State, f: Feed) {
    exists r: Result<Proposal> :: r.Ok? && Proposed(hw, opt, s, t, r, f.input, f.edges, f.ranked, f.now)
  }

  /** One window of the pinning phase: a proposal and its full commit. */
  ghost predicate PinsOnce(hw: Machine, opt: Options, s: State, t: State, f: Feed) {
    exists u, r: Result<Proposal> :: r.Ok? && Proposed(hw, opt, s, u, r, f.input, f.edges, f.ranked, f.now) && t == Committed(u, r.value, f.now, {})
  }

  /** The first `windows` windows plan, the next `commits` ones pin. */
  ghost predicate Course(hw: Machine, opt: Options, feed: nat -> Feed, windows: nat, commits: nat, states: seq<State>) {
    && |states| == windows + commits + 1 && states[0] == Initial()
    && (forall i :: 0 <= i < windows ==> PlansOnce(hw, opt, states[i], states[i + 1], feed(i)))
    && (forall i :: windows <= i < windows + commits ==> PinsOnce(hw, opt, states[i], states[i + 1], feed(i)))
  }

  lemma CoursePlans(hw: Machine, opt: Options, feed: nat -> Feed, windows: nat, states: seq<State>, r: Result<Proposal>, t: State)
    requires Course(hw, opt, feed, windows, 0, states) && r.Ok?
    requires var f := feed(windows); Proposed(hw, opt, states[windows], t, r, f.input, f.edges, f.ranked, f.now)
    ensures Course(hw, opt, feed, windows + 1, 0, states + [t])
  {
    hide Proposed;
    var more := states + [t];
    forall i | 0 <= i < windows + 1
      ensures PlansOnce(hw, opt, more[i], more[i + 1], feed(i))
    {
      if i < windows {
        assert PlansOnce(hw, opt, states[i], states[i + 1], feed(i));
      }
    }
  }

  lemma CoursePins(hw: Machine, opt: Options, feed: nat -> Feed, windows: nat, commits: nat, states: seq<State>,
                   u: State, r: Result<Proposal>, t: State)
    requires Course(hw, opt, feed, windows, commits, states) && r.Ok?
    requires var f := feed(windows + commits);
      Proposed(hw, opt, states[windows + commits], u, r, f.input, f.edges, f.ranked, f.now) && t == Committed(u, r.value, f.now, {})
    ensures Course(hw, opt, feed, windows, commits + 1, states + [t])
  {
    hide Proposed, Committed;
    var more := states + [t];
    forall i | windows <= i < windows + commits + 1
      ensures PinsOnce(hw, opt, more[i], more[i + 1], feed(i))
    {
      if i < windows + commits {
        assert PinsOnce(hw, opt, states[i], states[i + 1], feed(i));
      }
    }
    forall i | 0 <= i < windows
      ensures PlansOnce(hw, opt, more[i], more[i + 1], feed(i))
    {
      assert PlansOnce(hw, opt, states[i], states[i + 1], feed(i));
    }
  }

  /** In that planning window a node could not reach its floor. */
  ghost predicate FloorFails(hw: Machine, opt: Options, book: Book, f: Feed) {
    book.threads.Keys == TidSet(f.input) && exists at, n :: Stuck(RoundOf(hw, opt, book, f.edges), at, n)
  }

  /** The planning windows: every one repeats the plan of the first. */
  method PlanningRun(solver: Solver, feed: nat -> Feed) returns (ok: bool, windows: nat, ghost first: map<int, int>, ghost states: seq<State>)
    requires solver.Valid() && solver.S() == Initial() && Stable(feed)
    modifies solver
    ensures solver.Valid() && solver.history.clock == 0
    ensures Course(solver.hw, solver.opt, feed, windows, 0, states) && (ok ==> states[windows] == solver.S())
    ensures ok ==> windows == solver.opt.planConfirmations && Underway(solver.opt, solver.S(), feed(0).input, windows, first)
    ensures ok ==> FirstPlan(solver.hw, solver.opt, states[1], feed(0), first)
    ensures !ok ==> windows < solver.opt.planConfirmations && FloorFails(solver.hw, solver.opt, solver.book, feed(windows))
  {
    hide Inv, Underway, Stable, UniqueTids, Distinct, Proposed, IdSet, FloorFails, FirstPlan;
    windows, first := 0, map[];
    states := [Initial()];
    while windows < solver.opt.planConfirmations
      invariant solver.Valid() && solver.history.clock == 0 && windows <= solver.opt.planConfirmations
      invariant Course(solver.hw, solver.opt, feed, windows, 0, states) && |states| == windows + 1 && states[windows] == solver.S()
      invariant windows == 0 ==> solver.S() == Initial()
      invariant windows > 0 ==> solver.outstanding.None? && Underway(solver.opt, solver.S(), feed(0).input, windows, first)
      invariant windows > 0 ==> FirstPlan(solver.hw, solver.opt, states[1], feed(0), first)
    {
      hide Course;
      var f := feed(windows);
      ghost var s0 := solver.S();
      StableAt(feed, windows);
      SameIds(feed(0).input, f.input);
      if windows > 0 {
        UnderwayShift(solver.opt, s0, feed(0).input, f.input, windows, first);
      }
      var r := solver.Propose(f.input, f.edges, f.ranked, f.now);
      if r.Err? {
        PlanningFails(solver.hw, solver.opt, s0, solver.S(), r, f, windows, first);
        return false, windows, first, states;
      }
      CoursePlans(solver.hw, solver.opt, feed, windows, states, r, solver.S());
      states := states + [solver.S()];
      first := PlanningStep(solver.hw, solver.opt, s0, solver.S(), r, f, windows, first);
      UnderwayShift(solver.opt, solver.S(), f.input, feed(0).input, windows + 1, first);
      windows := windows + 1;
      UnderwayFree(solver.opt, solver.S(), feed(0).input, windows, first);
      CourseLength(solver.hw, solver.opt, feed, windows, 0, states);
    }
    ok := true;
  }

  lemma CourseLength(hw: Machine, opt: Options, feed: nat -> Feed, windows: nat, commits: nat, states: seq<State>)
    requires Course(hw, opt, feed, windows, commits, states)
    ensures |states| == windows + commits + 1
  {
    hide PlansOnce, PinsOnce;
  }

  lemma PlanningFails(hw: Machine, opt: Options, s0: State, t: State, r: Result<Proposal>, f: Feed, k: nat, first: map<int, int>)
    requires Proposed(hw, opt, s0, t, r, f.input, f.edges, f.ranked, f.now) && r.Err? && f.input != []
    requires k == 0 ==> s0 == Initial()
    requires k > 0 ==> Underway(opt, s0, f.input, k, first) && k < opt.planConfirmations
    ensures FloorFails(hw, opt, t.book, f)
  {
    hide Proposed, Underway, Stuck, RoundOf, TidSet;
    PlanningThrows(hw, opt, s0, t, r, f, k, first);
  }

  lemma UnderwayFree(opt: Options, s: State, input: seq<Thread>, k: nat, first: map<int, int>)
    requires Underway(opt, s, input, k, first)
    ensures s.outstanding.None?
  {
    hide Quiet, TidSet, PendingOf;
  }

  /** With a stable population and a budget of at least one thread, a reset solver is effective
  after exactly `planConfirmations` planning windows and one full commit per batch; the confirmed
  plan is the one of the first window.  Only a node that cannot reach its floor, or a lack of
  slots, can stop it. */
  method BecomesEffective(hw: Machine, opt: Options, feed: nat -> Feed)
    returns (solver: Solver, ok: bool, windows: nat, commits: nat, ghost first: map<int, int>, ghost states: seq<State>)
    requires opt.Valid() && Stable(feed)
    requires Budget(|TidSet(feed(0).input)|, opt.initialRatio) > 0
    ensures fresh(solver) && solver.Valid() && Course(hw, opt, feed, windows, commits, states)
    ensures ok ==> states[windows + commits] == solver.S()
    ensures ok ==> solver.phase == Optimizing && solver.book.threads != map[] && solver.place.pinned == solver.book.threads.Keys
    ensures ok ==> windows == opt.planConfirmations && states[windows].plan.targets.node == first
    ensures ok ==> FirstPlan(hw, opt, states[1], feed(0), first)
    ensures ok ==> commits == Batches(|TidSet(feed(0).input)|, Budget(|TidSet(feed(0).input)|, opt.initialRatio))
    ensures !ok ==>
      || (windows < opt.planConfirmations && FloorFails(hw, opt, solver.book, feed(windows)))
      || !Roomy(hw, opt, |TidSet(feed(0).input)|)
  {
    hide *;
    solver := new Solver(hw, opt);
    commits := 0;
    ok, windows, first, states := PlanningRun(solver, feed);
    if !ok {
      return;
    }
    ConfirmedFirst(opt, solver.S(), feed(0).input, windows, first);
    ghost var n := |TidSet(feed(0).input)|;
    ghost var b := Budget(n, opt.initialRatio);
    ghost var m := n;
    CourseLength(hw, opt, feed, windows, commits, states);
    solver.Fields();
    PinningStarts(solver, feed, windows, n);
    ConfirmsOnce(opt);
    while solver.phase != Optimizing
      invariant fresh(solver) && solver.hw == hw && solver.opt == opt && solver.Valid()
      invariant Course(hw, opt, feed, windows, commits, states) && |states| == windows + commits + 1
      invariant windows >= 1 && FirstPlan(hw, opt, states[1], feed(0), first)
      invariant states[windows + commits] == solver.S() && states[windows].plan.targets.node == first
      invariant 0 <= m <= n && commits + Batches(m, b) == Batches(n, b)
      invariant Pins(solver, feed, windows + commits, m)
      decreases m, solver.phase != Optimizing
    {
      ghost var s0 := solver.S();
      PinsParts(solver, feed, windows + commits, m);
      var done, t, r := PinOnce(solver, feed, windows + commits, m, b);
      if !done {
        return solver, false, windows, commits, first, states;
      }
      CoursePins(hw, opt, feed, windows, commits, states, t, r, solver.S());
      states := states + [solver.S()];
      BatchesStep(m, b);
      m := if m > b then m - b else 0;
      commits := commits + 1;
      CourseLength(hw, opt, feed, windows, commits, states);
    }
    PinsParts(solver, feed, windows + commits, m);
    BatchesNone(b);
  }

  /** Between the windows of the pinning phase: `m` threads are pending, or pinning is over. */
  ghost predicate Pins(solver: Solver, feed: nat -> Feed, k: nat, m: nat)
    reads solver
  {
    && solver.history.clock <= feed(k).now
    && (if solver.phase == Optimizing
        then m == 0 && solver.place.pinned == solver.book.threads.Keys && solver.book.threads != map[]
        else m > 0 && Pinning'(solver.S(), feed(0).input, m))
  }

  lemma PinsParts(solver: Solver, feed: nat -> Feed, k: nat, m: nat)
    requires Pins(solver, feed, k, m)
    ensures solver.history.clock <= feed(k).now
    ensures solver.phase != Optimizing ==> m > 0 && Pinning'(solver.S(), feed(0).input, m)
    ensures solver.phase == Optimizing ==> m == 0 && solver.place.pinned == solver.book.threads.Keys && solver.book.threads != map[]
  {
    hide Pinning';
  }

  lemma PinningStarts(solver: Solver, feed: nat -> Feed, k: nat, m: nat)
    requires solver.history.clock == 0 && m > 0 && Pinning'(solver.S(), feed(0).input, m) && solver.phase == InitialPinning
    ensures Pins(solver, feed, k, m)
  {
    hide Pinning';
  }

  lemma BatchesStep(m: nat, b: nat)
    requires b > 0 && m > 0
    ensures Batches(m, b) == 1 + Batches(if m > b then m - b else 0, b)
  {
  }

  lemma ConfirmsOnce(opt: Options)
    requires opt.Valid()
    ensures opt.planConfirmations >= 1
  {
  }

  lemma BatchesNone(b: nat)
    requires b > 0
    ensures Batches(0, b) == 0
  {
  }

  /** One window of the pinning phase and its full commit. */
  method PinOnce(solver: Solver, feed: nat -> Feed, k: nat, ghost m: nat, ghost b: nat)
    returns (ok: bool, ghost t: State, ghost r: Result<Proposal>)
    requires solver.Valid() && Stable(feed) && m > 0 && Pinning'(solver.S(), feed(0).input, m) && solver.history.clock <= feed(k).now
    requires b == Budget(|TidSet(feed(0).input)|, solver.opt.initialRatio) && b > 0
    modifies solver
    ensures solver.Valid()
    ensures ok ==>
      && r.Ok? && Proposed(solver.hw, solver.opt, old(solver.S()), t, r, feed(k).input, feed(k).edges, feed(k).ranked, feed(k).now)
      && solver.S() == Committed(t, r.value, feed(k).now, {}) && Pins(solver, feed, k + 1, if m > b then m - b else 0)
    ensures !ok ==> !Roomy(solver.hw, solver.opt, |TidSet(feed(0).input)|)
  {
    hide Inv, Stable, UniqueTids, Distinct, Proposed, IdSet, TidSet, Budget, Pinning', Follows, Committed, Roomy;
    var f := feed(k);
    ghost var s0 := solver.S();
    StableAt(feed, k);
    SameIds(feed(0).input, f.input);
    PinningShift(s0, feed(0).input, f.input, m);
    PinningFree(s0, f.input, m);
    var result := solver.Propose(f.input, f.edges, f.ranked, f.now);
    t, r := solver.S(), result;
    if result.Err? {
      PinningThrows(solver.hw, solver.opt, s0, t, r, f, m);
      return false, t, r;
    }
    PinningStep(solver.hw, solver.opt, s0, t, r, f, m);
    solver.Commit(result.value, f.now, {});
    CommittedClock(t, r.value, f.now, {});
    LaterFeed(feed, k);
    if m > b {
      PinningShift(solver.S(), f.input, feed(0).input, m - b);
      PinningPhase(solver.S(), f.input, m - b);
    }
    ok := true;
  }

  lemma LaterFeed(feed: nat -> Feed, k: nat)
    requires Stable(feed)
    ensures feed(k).now <= feed(k + 1).now
  {
    hide UniqueTids, Distinct, IdSet;
  }

  lemma PinningPhase(s: State, input: seq<Thread>, m: nat)
    requires Pinning'(s, input, m)
    ensures s.phase == InitialPinning
  {
    hide Quiet, TidSet, PendingOf;
  }

  lemma PinningFree(s: State, input: seq<Thread>, m: nat)
    requires Pinning'(s, input, m)
    ensures s.outstanding.None?
  {
    hide Quiet, TidSet, PendingOf;
  }

  lemma ConfirmedFirst(opt: Options, s: State, input: seq<Thread>, k: nat, first: map<int, int>)
    requires Underway(opt, s, input, k, first) && k == opt.planConfirmations
    ensures s.plan.targets.node == first && Pinning'(s, input, |TidSet(input)|) && s.phase == InitialPinning
    ensures |TidSet(input)| > 0
  {
    hide Quiet, PendingOf;
    assert input[0] in input;
    assert input[0].id.tid in TidSet(input);
  }
}
