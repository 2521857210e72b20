/** The window step of src/runtime.cpp that joins the incremental solver and the actuator
(lines 1466-1493 and 1614-1644), and the agreement of placement and kernel over whole runs. */
module Runtime {
  import opened Lists
  import opened Counting
  import opened Topology
  import opened Threads
  import opened NodePlanner
  import opened Pinning
  import opened Optimizer
  import opened SolverState
  import opened Admission
  import opened Windows
  import opened IncrementalSolver
  import opened Protocol
  import opened Actuator

  /** Every live thread that the solver believes placed was written by the actuator and has
  exactly its CPU as mask, unless a refused write has left something else. */
  ghost predicate Agrees(placement: map<int, int>, masks: map<int, Mask>, acted: set<int>, strayed: set<int>) {
    forall t :: t in placement && t in masks ==> t in acted && (t in strayed || masks[t] == {placement[t]})
  }

  /** Agreement, with nothing strayed under a kernel whose refusals change nothing. */
  ghost predicate Consistent(placement: map<int, int>, masks: map<int, Mask>, acted: set<int>, strayed: set<int>, exact: bool) {
    Agrees(placement, masks, acted, strayed) && (exact ==> strayed == {})
  }

  /** Threads that were given back their masks are no longer placed. */
  lemma AgreesReleased(placement: map<int, int>, rest: map<int, int>, m0: map<int, Mask>, m: map<int, Mask>,
                       restore: map<int, Mask>, released: set<int>, acted: set<int>, strayed: set<int>, exact: bool)
    requires Consistent(placement, m0, acted, strayed, exact) && Returned(m0, m, restore, released, {})
    requires SubMap(rest, placement) && forall t :: t in released ==> t !in rest
    ensures Consistent(rest, m, acted - released, strayed, exact)
  {
  }

  /** The threads that a refused write may have left with another mask. */
  function Strays(strayed: set<int>, refused: int, left: Option<Mask>): set<int> {
    if left.Some? then strayed + {refused} else strayed
  }

  lemma AgreesUndone(placement: map<int, int>, m0: map<int, Mask>, m: map<int, Mask>, acted: set<int>, strayed: set<int>,
                     exact: bool, refused: int, left: Option<Mask>)
    requires Consistent(placement, m0, acted, strayed, exact) && AsBefore(m0, m, refused, left) && (exact ==> left.None?)
    ensures Consistent(placement, m, acted, Strays(strayed, refused, left), exact)
  {
  }

  /** The masks of a batch: `PlacementDelta`. */
  function Delta(actions: seq<Action>): map<int, Mask> {
    if actions == [] then map[]
    else Delta(actions[..|actions| - 1])[actions[|actions| - 1].id.tid := {actions[|actions| - 1].to}]
  }

  lemma {:induction false} DeltaKeys(actions: seq<Action>)
    ensures Delta(actions).Keys == TidsOf(actions)
  {
    if actions == [] {
      assert TidsOf(actions) == {};
    } else {
      hide TidsOf;
      var n := |actions| - 1;
      assert actions == actions[..n] + [actions[n]];
      DeltaKeys(actions[..n]);
      TidsOfOne(actions[..n], actions[n]);
    }
  }

  lemma {:induction false} DeltaMeans(actions: seq<Action>)
    requires forall i, j :: 0 <= i < j < |actions| ==> actions[i].id.tid != actions[j].id.tid
    ensures Delta(actions).Keys == TidsOf(actions)
    ensures forall a :: a in actions ==> a.id.tid in Delta(actions) && Delta(actions)[a.id.tid] == {a.to}
  {
    DeltaKeys(actions);
    hide TidsOf;
    if actions != [] {
      var n := |actions| - 1;
      var rest, last := actions[..n], actions[n];
      assert actions == rest + [last];
      DeltaMeans(rest);
      forall a | a in actions
        ensures a.id.tid in Delta(actions) && Delta(actions)[a.id.tid] == {a.to}
      {
        if a in rest {
          var i :| 0 <= i < n && rest[i] == a;
          assert actions[i].id.tid != actions[n].id.tid;
        }
      }
    }
  }

  lemma WrittenKeys(m0: map<int, Mask>, m: map<int, Mask>, wanted: map<int, Mask>, done: set<int>)
    requires Written(m0, m, wanted, done)
    ensures done <= m0.Keys
  {
  }

  lemma OutcomeAt(s: State, actions: seq<Action>, committed: set<int>, t: int)
    requires Settles(actions, s.book.threads.Keys, committed) && t in Outcome(s, actions)
    ensures if t in TidsOf(actions)
            then t in committed && exists a :: a in actions && a.id.tid == t && Outcome(s, actions)[t] == a.to
            else t in s.place.placement && Outcome(s, actions)[t] == s.place.placement[t]
  {
    if t in TidsOf(actions) {
      var a :| a in actions && a.id.tid == t;
      AfterAt(s.place.placement, actions, a);
    } else {
      AfterElsewhere(s.place.placement, actions, t);
    }
  }

  lemma OutcomeGrows(s: State, actions: seq<Action>, committed: set<int>)
    requires Settles(actions, s.book.threads.Keys, committed)
    ensures Outcome(s, actions).Keys <= s.place.placement.Keys + committed
  {
    hide Settles, Outcome;
    forall t | t in Outcome(s, actions)
      ensures t in s.place.placement.Keys + committed
    {
      OutcomeAt(s, actions, committed, t);
    }
  }

  /** Of the threads that are not gone, those of the batch are where it sends them, the others
  where they were. */
  ghost predicate Lands(before: map<int, int>, after: map<int, int>, actions: seq<Action>, gone: set<int>) {
    && (forall a :: a in actions && a.id.tid !in gone ==> a.id.tid in after && after[a.id.tid] == a.to)
    && (forall t :: t in before && t !in gone && t !in TidsOf(actions) ==> t in after && after[t] == before[t])
    && (forall t :: t in after ==> t !in gone && (t in before || t in TidsOf(actions)))
  }

  lemma Landed(s0: State, s: State, actions: seq<Action>, after: map<int, int>, committed: set<int>, gone: set<int>)
    requires Settles(actions, s.book.threads.Keys, committed)
    requires committed + gone == TidsOf(actions) && committed !! gone
    requires s.place.placement == s0.place.placement - gone && s.book.threads.Keys == s0.book.threads.Keys - gone
    requires s0.place.placement.Keys <= s0.book.threads.Keys
    requires after == if committed == {} then s.place.placement else Outcome(s, actions)
    ensures Lands(s0.place.placement, after, actions, gone)
  {
    forall a | a in actions && a.id.tid !in gone
      ensures a.id.tid in after && after[a.id.tid] == a.to
    {
      assert a.id.tid in committed + gone;
      AfterAt(s.place.placement, actions, a);
    }
    forall t | t in s0.place.placement && t !in gone && t !in TidsOf(actions)
      ensures t in after && after[t] == s0.place.placement[t]
    {
      assert t in s0.place.placement.Keys;
      AfterElsewhere(s.place.placement, actions, t);
    }
    forall t | t in after
      ensures t !in gone && (t in s0.place.placement || t in TidsOf(actions))
    {
      if committed != {} {
        OutcomeAt(s, actions, committed, t);
      }
    }
  }

  /** What was written and committed agrees again; what vanished is no longer placed. */
  lemma AgreesWritten(s0: State, s: State, actions: seq<Action>, after: map<int, int>, m0: map<int, Mask>, m: map<int, Mask>,
                      acted: set<int>, strayed: set<int>, committed: set<int>, exact: bool)
    requires Settles(actions, s.book.threads.Keys, committed) && SubMap(s.place.placement, s0.place.placement)
    requires after == if committed == {} then s.place.placement else Outcome(s, actions)
    requires Consistent(s0.place.placement, m0, acted, strayed, exact) && Written(m0, m, Delta(actions), committed)
    ensures Consistent(after, m, acted + committed, strayed - committed, exact)
  {
    DeltaMeans(actions);
    hide Settles, Outcome, Delta;
    forall t | t in after && t in m
      ensures t in acted + committed && (t in strayed - committed || m[t] == {after[t]})
    {
      if committed != {} {
        OutcomeAt(s, actions, committed, t);
        if t in TidsOf(actions) {
          var a :| a in actions && a.id.tid == t && after[t] == a.to;
        }
      }
    }
    assert exact ==> strayed - committed == {};
  }

  lemma BatchDelta(hw: Machine, opt: Options, s: State, p: Proposal)
    requires Inv(hw, opt, s) && s.outstanding == Some(p)
    ensures Delta(p.actions).Keys == TidsOf(p.actions)
  {
    BatchUnique(hw, opt, s, p);
    DeltaMeans(p.actions);
  }

  /** What a batch asks for is never empty. */
  lemma DeltaNonEmpty(actions: seq<Action>, t: int)
    requires forall i, j :: 0 <= i < j < |actions| ==> actions[i].id.tid != actions[j].id.tid
    requires t in Delta(actions)
    ensures Delta(actions)[t] != {}
  {
    DeltaMeans(actions);
    assert t in TidsOf(actions);
    var a :| a in actions && a.id.tid == t;
  }

  // ----- what a call of propose leaves for the actuator -----

  /** What a window means for the actuator: no thread is placed anew, and a ready proposal is
  outstanding and moves only managed threads. */
  ghost predicate Offers(s: State, t: State, r: Result<Proposal>) {
    && t.place == s.place && t.book == s.book
    && (if r.Ok? && r.value.ready
        then t.outstanding == Some(r.value) && forall a :: a in r.value.actions ==> a.id.tid in t.book.threads
        else t.outstanding.None?)
  }

  lemma PlanOffers(hw: Machine, opt: Options, u: State, t: State, r: Result<Proposal>, edges: seq<Edge>)
    requires r.Ok? && !r.value.ready && PlanResult(hw, opt, u, edges, t, r.value.planConfirmed) && u.outstanding.None?
    ensures Offers(u, t, r)
  {
    hide GoodPlan, GoodCpus, PlanResult, Computed;
    var plan := PlanResultPlan(hw, opt, u, edges, t, r.value.planConfirmed);
  }

  lemma PinOffers(hw: Machine, opt: Options, u: State, t: State, r: Result<Proposal>)
    requires r.Ok? && PinResult(hw, opt, u, t, r.value) && u.outstanding.None? && Inv(hw, opt, u)
    ensures Offers(u, t, r)
  {
    hide *;
    InvRecords(hw, opt, u);
    var batch := PinResultBatch(hw, opt, u, t, r.value);
    PinStepOffers(hw, u, t, r, batch);
  }

  lemma PinStepOffers(hw: Machine, u: State, t: State, r: Result<Proposal>, batch: seq<int>)
    requires r.Ok? && PinStep(hw, u, t, r.value, batch) && u.outstanding.None?
    requires forall x :: x in u.book.identities ==> u.book.identities[x].tid == x && x in u.book.threads
    ensures Offers(u, t, r)
  {
    hide PendingOf, NodeMap, Targets.For, Distinct;
    forall a | a in r.value.actions
      ensures a.id.tid in u.book.threads
    {
      var i :| 0 <= i < |r.value.actions| && r.value.actions[i] == a;
      assert batch[i] in u.book.identities;
    }
  }

  lemma InvRecords(hw: Machine, opt: Options, s: State)
    requires Inv(hw, opt, s)
    ensures s.place.placement.Keys == s.place.pinned <= s.book.threads.Keys
    ensures forall t :: t in s.book.identities ==> s.book.identities[t].tid == t && t in s.book.threads
  {
    hide Plans, Moves, Streaks, Slots, Pending, NodeMap, Targets.For, PhaseOk;
    forall t | t in s.book.identities
      ensures t in s.book.threads
    {
      assert t in s.book.identities.Keys;
    }
  }

  lemma OptimizeOffers(hw: Machine, opt: Options, u: State, t: State, r: Result<Proposal>, edges: seq<Edge>, ranked: seq<int>, now: nat)
    requires r.Ok? && OptimizeResult(hw, opt, u, t, r.value, edges, ranked, now) && u.outstanding.None? && Inv(hw, opt, u)
    ensures Offers(u, t, r)
  {
    InvRecords(hw, opt, u);
    hide Inv, SlotCap, MakeBoard, SlotViolation, OverloadOf, Streak, Rested, KeyOf, Flatten, After, Evaluates, Chosen, KeysOf;
    var scene, potentials :| OptimizeStep(hw, opt, u, t, r.value, edges, ranked, now, scene, potentials);
    forall a | a in r.value.actions
      ensures a.id.tid in u.book.threads
    {
      assert a.id.tid in u.place.placement.Keys;
    }
  }

  lemma WindowOffers(hw: Machine, opt: Options, s: State, t: State, r: Result<Proposal>, edges: seq<Edge>, ranked: seq<int>, now: nat)
    requires WindowDone(hw, opt, s, t, r, edges, ranked, now) && Inv(hw, opt, s) && s.outstanding.None?
    ensures Offers(Numbered(s), t, r)
  {
    var u := Numbered(s);
    NumberedInv(hw, opt, s, u.phase);
    hide Inv, PlanResult, PlanPromise, Stuck, RoundOf, PinResult, OptimizeResult, Budget, Roomy;
    match u.phase
    case Uninitialized =>
    case NodePlanning =>
      if r.Ok? {
        PlanOffers(hw, opt, u, t, r, edges);
      }
    case InitialPinning =>
      if r.Ok? && Budget(|s.book.threads|, opt.initialRatio) > 0 {
        PinOffers(hw, opt, u, t, r);
      }
    case Optimizing =>
      if r.Ok? && Budget(|s.book.threads|, opt.ratio) > 0 {
        OptimizeOffers(hw, opt, u, t, r, edges, ranked, now);
      }
  }

  /** The records of a window keep placements of known threads and add none. */
  lemma SyncShrinks(hw: Machine, opt: Options, s0: State, s: State, input: seq<Thread>)
    requires SyncDone(hw, opt, s0, s, input) && Inv(hw, opt, s)
    ensures SubMap(s.place.placement, s0.place.placement) && s.book.threads.Keys == TidSet(input)
  {
    InvRecords(hw, opt, s);
    hide Inv, Known, Quiet, TargetsEffective, LatePhase, Lookup;
    forall t | t in s.place.placement
      ensures t in s0.place.placement && s.place.placement[t] == s0.place.placement[t]
    {
      assert t in s.place.placement.Keys;
      assert t in TidSet(input);
      var th :| th in input && th.id.tid == t;
      var i :| 0 <= i < |input| && input[i] == th;
      if Known(s0, input[i]) {
        assert input[i].id.tid in s0.place.placement;
      }
    }
  }

  /** What a call of `propose` means for the actuator. */
  lemma ProposeOffers(hw: Machine, opt: Options, s0: State, t: State, r: Result<Proposal>,
                      input: seq<Thread>, edges: seq<Edge>, ranked: seq<int>, now: nat)
    requires Proposed(hw, opt, s0, t, r, input, edges, ranked, now)
    ensures SubMap(t.place.placement, s0.place.placement) && t.book.threads.Keys == TidSet(input)
    ensures if r.Ok? && r.value.ready
            then t.outstanding == Some(r.value) && forall a :: a in r.value.actions ==> a.id.tid in t.book.threads
            else t.outstanding.None?
  {
    hide Inv, SyncDone, WindowDone, SubMap, TidSet;
    var s :| Inv(hw, opt, s) && SyncDone(hw, opt, s0, s, input) && WindowDone(hw, opt, s, t, r, edges, ranked, now);
    SyncShrinks(hw, opt, s0, s, input);
    SyncClock(hw, opt, s0, s, input);
    WindowOffers(hw, opt, s, t, r, edges, ranked, now);
  }

  // ----- one window -----

  /** How a window ends. */
  datatype Report =
    | RestoreFailed
    | Waiting
    | Threw
    | NotReady
    | ActionFailed(undone: bool)
    | ActionCommitted

  /** What a proposal comes to: nothing, a failure that withdraws it, or the commit of the threads
  that were written after the vanished ones are removed. */
  ghost predicate Answered(u: State, r: Result<Proposal>, t: State, masks: map<int, Mask>, now: nat, report: Report) {
    if r.Err? then report == Threw && t == u
    else if !r.value.ready then report == NotReady && t == u
    else if report.ActionFailed? then t == Discarded(u, r.value)
    else report == ActionCommitted && exists committed, vanished :: Landing(u, r.value, t, masks, now, committed, vanished)
  }

  ghost predicate Landing(u: State, p: Proposal, t: State, masks: map<int, Mask>, now: nat, committed: set<int>, vanished: set<int>) {
    && committed + vanished == TidsOf(p.actions) && committed !! vanished && vanished !! masks.Keys
    && t == Concluded(u, p, committed, vanished, now)
  }

  /** What one window makes of the solver. */
  ghost predicate Handled(hw: Machine, opt: Options, s: State, t: State, cohort: set<int>, masks: map<int, Mask>,
                          input: seq<Thread>, edges: seq<Edge>, ranked: seq<int>, healthy: bool, now: nat, report: Report)
  {
    var cool := Cooled(s, cohort - TidSet(input), TidSet(input));
    if report == RestoreFailed then t == s
    else if !healthy || input == [] then report == Waiting && t == cool
    else exists u, r :: Proposed(hw, opt, cool, u, r, input, edges, ranked, now) && Answered(u, r, t, masks, now, report)
  }

  class Runtime {
    const solver: Solver
    const actuator: Actuator
    /** The threads under management. */
    var cohort: set<int>
    /** Threads that a refused write may have left with another mask. */
    ghost var strayed: set<int>

    ghost predicate Ready()
      reads this, solver, actuator
    {
      && solver.Valid() && actuator.Valid() && solver.outstanding.None? && solver.book.threads.Keys <= cohort
    }

    ghost predicate Agree()
      reads this, solver, actuator, actuator.kernel
    {
      Consistent(solver.place.placement, actuator.kernel.masks, actuator.acted, strayed, actuator.kernel.Exact())
    }

    ghost function Look(): World
      reads this, solver, actuator, actuator.kernel
    {
      World(solver.S(), cohort, actuator.kernel.masks, actuator.acted)
    }

    constructor (solver: Solver, actuator: Actuator)
      requires solver.Valid() && actuator.Valid() && solver.S() == Initial()
      ensures this.solver == solver && this.actuator == actuator && cohort == {} && Ready() && Agree()
    {
      this.solver, this.actuator := solver, actuator;
      cohort, strayed := {}, {};
    }

    /** Lines 1466-1492: threads that leave the cohort get their masks back and leave the solver.  It
    fails only because the kernel refuses a call. */
    method Cool(next: set<int>) returns (ok: bool)
      requires Ready()
      modifies this, solver, actuator, actuator.kernel
      ensures old(actuator.kernel.calls) <= actuator.kernel.calls
      ensures ok ==> Ready() && cohort == next && (old(Agree()) ==> Agree())
      ensures solver.S() == if ok then Cooled(old(solver.S()), old(cohort) - next, next) else old(solver.S())
      ensures !ok ==> Heard(actuator.kernel.oracle, old(actuator.kernel.calls), actuator.kernel.calls, Refused)
      ensures ok ==> solver.place.placement == old(solver.place.placement) - (old(cohort) - next)
      ensures ok ==> solver.history.clock <= old(solver.history.clock)
      ensures ok ==> forall t :: t in old(cohort) - next && t in old(actuator.acted) && t in actuator.kernel.masks ==>
        Origin(old(actuator.log), t) == Some(actuator.kernel.masks[t])
      ensures actuator.kernel.masks.Keys <= old(actuator.kernel.masks).Keys
      ensures Outside(old(actuator.kernel.masks), actuator.kernel.masks, old(actuator.acted)) && actuator.acted <= old(actuator.acted)
    {
      hide Inv, Actuator.Valid, Consistent, Returned, Origin, Forgets, Kernel.Exact, SubMap, Heard, RemovedAll, Cooled, Outside;
      var cooling := cohort - next;
      ghost var m0, restore0, acted0, s0 := actuator.kernel.masks, actuator.restoreMasks, actuator.acted, solver.S();
      var result, released := actuator.Restore(cooling);
      ReturnedMeans(m0, actuator.kernel.masks, restore0, released, cooling * acted0 - released);
      ReturnedOutside(m0, actuator.kernel.masks, restore0, released, cooling * acted0 - released, acted0);
      if result.failed > 0 {
        return false;
      }
      assert cooling * acted0 - released == {};
      CooledPlaces(solver.hw, solver.opt, s0, cooling, next);
      Dismiss(solver, cooling, next);
      assert solver.place == solver.S().place;
      SubMapWithout(s0.place.placement, cooling);
      cohort := next;
      if Consistent(s0.place.placement, m0, acted0, strayed, actuator.kernel.Exact()) {
        AgreesReleased(s0.place.placement, solver.place.placement, m0, actuator.kernel.masks, restore0, released,
                       acted0, strayed, actuator.kernel.Exact());
      }
      ok := true;
    }

    /** Lines 1616-1643: writes the batch, then commits what was written or discards.  It fails only
    because the kernel refuses a call. */
    method Act(p: Proposal, live: set<int>, now: nat) returns (report: Report)
      requires solver.Valid() && actuator.Valid() && solver.outstanding == Some(p) && solver.book.threads.Keys <= cohort
      requires solver.history.clock <= now && p.ready && solver.book.threads.Keys <= live
      requires forall a :: a in p.actions ==> a.id.tid in solver.book.threads
      modifies this, solver, actuator, actuator.kernel
      ensures Ready() && cohort == old(cohort) && solver.history.clock <= now && old(actuator.kernel.calls) <= actuator.kernel.calls
      ensures report == ActionCommitted || report.ActionFailed?
      ensures Answered(old(solver.S()), Ok(p), solver.S(), actuator.kernel.masks, now, report)
      ensures report.ActionFailed? ==> Heard(actuator.kernel.oracle, old(actuator.kernel.calls), actuator.kernel.calls, Refused)
      ensures report != ActionFailed(false) && old(Agree()) ==> Agree()
      ensures actuator.kernel.masks.Keys <= old(actuator.kernel.masks).Keys
      ensures Outside(old(actuator.kernel.masks), actuator.kernel.masks, live) && actuator.acted <= old(actuator.acted) + live
      ensures solver.place.placement.Keys <= old(solver.place.placement).Keys + old(actuator.kernel.masks).Keys
    {
      hide *;
      ghost var m0, acted0, c0 := actuator.kernel.masks, actuator.acted, actuator.kernel.calls;
      AgreeMeans();
      BatchDelta(solver.hw, solver.opt, solver.S(), p) by { solver.Fields(); }
      var result, refused, left := actuator.Apply(Delta(p.actions), live);
      BatchWithin(p.actions, solver.book.threads.Keys);
      OutsideWider(m0, actuator.kernel.masks, Delta(p.actions).Keys, live);
      if !result.success {
        Fail(p, now, refused, left, result.rollbackSuccess, m0, acted0, c0);
        report := ActionFailed(result.rollbackSuccess);
      } else {
        Land(p, live, result.committed, result.vanished, now, m0, acted0);
        report := ActionCommitted;
      }
    }

    method Fail(p: Proposal, now: nat, ghost refused: int, ghost left: Option<Mask>, undone: bool,
                ghost m0: map<int, Mask>, ghost acted0: set<int>, ghost c0: nat)
      requires solver.Valid() && actuator.Valid() && solver.outstanding == Some(p) && solver.book.threads.Keys <= cohort && p.ready
      requires refused in Delta(p.actions)
      requires Rejected(actuator.kernel.oracle, c0, actuator.kernel.calls, Delta(p.actions)[refused], left)
      requires undone ==> actuator.acted == acted0 && AsBefore(m0, actuator.kernel.masks, refused, left)
      modifies this`strayed, solver`outstanding
      ensures Ready() && Answered(old(solver.S()), Ok(p), solver.S(), actuator.kernel.masks, now, ActionFailed(undone))
      ensures Heard(actuator.kernel.oracle, c0, actuator.kernel.calls, Refused)
      ensures undone && Consistent(solver.place.placement, m0, acted0, old(strayed), actuator.kernel.Exact()) ==> Agree()
    {
      hide *;
      ghost var s0 := solver.S();
      solver.Fields();
      DeltaAsked(solver.hw, solver.opt, s0, p, refused);
      RejectedHeard(actuator.kernel.oracle, c0, actuator.kernel.calls, Delta(p.actions)[refused], left);
      actuator.kernel.ExactMeans();
      Withdraw(p, refused, left, undone, m0, acted0);
      AnsweredFailed(s0, p, solver.S(), actuator.kernel.masks, now, undone);
    }

    method Land(p: Proposal, live: set<int>, committed: set<int>, vanished: set<int>, now: nat,
                ghost m0: map<int, Mask>, ghost acted0: set<int>)
      requires solver.Valid() && actuator.Valid() && solver.outstanding == Some(p) && solver.book.threads.Keys <= cohort
      requires solver.history.clock <= now && p.ready && solver.book.threads.Keys <= live
      requires forall a :: a in p.actions ==> a.id.tid in solver.book.threads
      requires committed + vanished == TidsOf(p.actions) && committed !! vanished && actuator.acted == acted0 + committed
      requires Written(m0, actuator.kernel.masks, Delta(p.actions), committed)
      requires forall t :: t in vanished ==> t !in live || t !in actuator.kernel.masks
      modifies this`strayed, solver
      ensures Ready() && solver.history.clock <= now
      ensures Answered(old(solver.S()), Ok(p), solver.S(), actuator.kernel.masks, now, ActionCommitted)
      ensures solver.place.placement.Keys <= old(solver.place.placement).Keys + m0.Keys
      ensures Consistent(old(solver.place.placement), m0, acted0, old(strayed), actuator.kernel.Exact()) ==> Agree()
    {
      hide *;
      ghost var s0 := solver.S();
      WrittenKeys(m0, actuator.kernel.masks, Delta(p.actions), committed);
      Settle(p, committed, vanished, now, m0, acted0);
      LandingIs(s0, p, solver.S(), actuator.kernel.masks, live, now, committed, vanished);
    }

    lemma AgreeMeans()
      ensures Agree() <==>
        Consistent(solver.place.placement, actuator.kernel.masks, actuator.acted, strayed, actuator.kernel.Exact())
    {
    }

    /** Line 1634: the solver withdraws a batch that was not written. */
    method Withdraw(p: Proposal, ghost refused: int, ghost left: Option<Mask>, ghost undone: bool,
                    ghost m0: map<int, Mask>, ghost acted0: set<int>)
      requires solver.Valid() && actuator.Valid() && solver.outstanding == Some(p) && solver.book.threads.Keys <= cohort
      requires undone ==> actuator.acted == acted0 && AsBefore(m0, actuator.kernel.masks, refused, left)
      requires actuator.kernel.Exact() ==> left.None?
      modifies this`strayed, solver`outstanding
      ensures Ready() && solver.S() == Discarded(old(solver.S()), p)
      ensures undone && Consistent(solver.place.placement, m0, acted0, old(strayed), actuator.kernel.Exact()) ==> Agree()
    {
      hide Inv, Actuator.Valid, Consistent, AsBefore, Kernel.Exact;
      solver.Discard(p);
      if undone && Consistent(solver.place.placement, m0, acted0, strayed, actuator.kernel.Exact()) {
        AgreesUndone(solver.place.placement, m0, actuator.kernel.masks, acted0, strayed, actuator.kernel.Exact(), refused, left);
      }
      strayed := Strays(strayed, refused, left);
    }

    /** Lines 1638-1643: what is gone is removed, what was written is committed. */
    method Settle(p: Proposal, committed: set<int>, vanished: set<int>, now: nat, ghost m0: map<int, Mask>, ghost acted0: set<int>)
      requires solver.Valid() && solver.outstanding == Some(p) && solver.book.threads.Keys <= cohort && solver.history.clock <= now
      requires forall a :: a in p.actions ==> a.id.tid in solver.book.threads
      requires committed + vanished == TidsOf(p.actions) && committed !! vanished
      requires actuator.Valid() && actuator.acted == acted0 + committed && Written(m0, actuator.kernel.masks, Delta(p.actions), committed)
      modifies this`strayed, solver
      ensures Ready() && solver.history.clock <= now
      ensures solver.S() == Concluded(old(solver.S()), p, committed, vanished, now)
      ensures solver.place.placement.Keys <= old(solver.place.placement).Keys + committed
      ensures Lands(old(solver.place.placement), solver.place.placement, p.actions, vanished)
      ensures Consistent(old(solver.place.placement), m0, acted0, old(strayed), actuator.kernel.Exact()) ==> Agree()
    {
      hide Inv, Consistent, Written, TidsOf, Delta, Concluded, Lands, Kernel.Exact, Actuator.Valid;
      ghost var s0 := solver.S();
      SettleFacts(solver.hw, solver.opt, s0, p, committed, vanished, now, m0, actuator.kernel.masks, acted0, strayed, actuator.kernel.Exact());
      Conclude(solver, p, committed, vanished, now);
      assert solver.place == solver.S().place && solver.book == solver.S().book;
      strayed := strayed - committed;
    }

    /** One solve window.  `input` is the selection of managed threads, `healthy` whether the
    samples of the window can be trusted. */
    method Window(input: seq<Thread>, edges: seq<Edge>, ranked: seq<int>, healthy: bool, now: nat) returns (report: Report)
      requires Ready() && UniqueTids(input) && Distinct(ranked) && solver.history.clock <= now
      modifies this, solver, actuator, actuator.kernel
      ensures report != RestoreFailed ==> Ready() && solver.history.clock <= now && cohort == TidSet(input)
      ensures Handled(solver.hw, solver.opt, old(solver.S()), solver.S(), old(cohort), actuator.kernel.masks,
                      input, edges, ranked, healthy, now, report)
      ensures report == RestoreFailed || report.ActionFailed? ==>
        Heard(actuator.kernel.oracle, old(actuator.kernel.calls), actuator.kernel.calls, Refused)
      ensures report != RestoreFailed && report != ActionFailed(false) && old(Agree()) ==> Agree()
      ensures actuator.kernel.masks.Keys <= old(actuator.kernel.masks).Keys && old(actuator.kernel.calls) <= actuator.kernel.calls
      ensures Outside(old(actuator.kernel.masks), actuator.kernel.masks, old(actuator.acted) + TidSet(input))
      ensures actuator.acted <= old(actuator.acted) + TidSet(input)
      ensures solver.place.placement.Keys <= old(solver.place.placement).Keys + old(actuator.kernel.masks).Keys
    {
      hide Inv, Consistent, Remembers, Kernel.Exact, Proposed, UniqueTids, Distinct, TidSet, SubMap, Origin, Heard, Cooled, Answered, Outside;
      ghost var c0, start, m0, touched := actuator.kernel.calls, solver.S(), actuator.kernel.masks, actuator.acted + TidSet(input);
      var ok := Cool(TidSet(input));
      OutsideWider(m0, actuator.kernel.masks, old(actuator.acted), touched);
      if !ok {
        return RestoreFailed;
      }
      if !healthy || input == [] {
        return Waiting;
      }
      ghost var s0, c1 := solver.S(), actuator.kernel.calls;
      var r := solver.Propose(input, edges, ranked, now);
      ghost var u := solver.S();
      ProposeOffers(solver.hw, solver.opt, s0, u, r, input, edges, ranked, now);
      ConsistentSub(solver.place.placement, s0.place.placement, actuator.kernel.masks, actuator.acted, strayed, actuator.kernel.Exact());
      if r.Err? {
        AnsweredIdle(u, r, actuator.kernel.masks, now);
        return Threw;
      }
      if !r.value.ready {
        AnsweredIdle(u, r, actuator.kernel.masks, now);
        return NotReady;
      }
      ghost var m1 := actuator.kernel.masks;
      report := Act(r.value, TidSet(input), now);
      OutsideTrans(m0, m1, actuator.kernel.masks, touched, TidSet(input), touched);
      HeardGrows(actuator.kernel.oracle, c0, c1, actuator.kernel.calls);
    }
  }

  lemma AnsweredFailed(u: State, p: Proposal, t: State, masks: map<int, Mask>, now: nat, undone: bool)
    requires t == Discarded(u, p) && p.ready
    ensures Answered(u, Ok(p), t, masks, now, ActionFailed(undone))
  {
  }

  lemma AnsweredIdle(u: State, r: Result<Proposal>, masks: map<int, Mask>, now: nat)
    requires r.Ok? ==> !r.value.ready
    ensures Answered(u, r, u, masks, now, if r.Err? then Threw else NotReady)
  {
  }

  lemma ConsistentSub(small: map<int, int>, big: map<int, int>, masks: map<int, Mask>, acted: set<int>, strayed: set<int>, exact: bool)
    requires SubMap(small, big)
    ensures Consistent(big, masks, acted, strayed, exact) ==> Consistent(small, masks, acted, strayed, exact)
    ensures small.Keys <= big.Keys
  {
    forall t | t in small.Keys
      ensures t in big.Keys
    {
    }
  }

  lemma SubMapWithout(at: map<int, int>, tids: set<int>)
    ensures SubMap(at - tids, at) && (at - tids).Keys <= at.Keys
  {
  }

  lemma CooledPlaces(hw: Machine, opt: Options, s: State, cooling: set<int>, next: set<int>)
    requires Inv(hw, opt, s) && s.outstanding.None? && s.book.threads.Keys <= cooling + next
    ensures Cooled(s, cooling, next).place.placement == s.place.placement - cooling
  {
    hide Inv, Cooled;
    CooledInv(hw, opt, s, cooling, next);
  }

  /** The mask of every thread of a batch is one CPU. */
  lemma DeltaAsked(hw: Machine, opt: Options, s: State, p: Proposal, t: int)
    requires Inv(hw, opt, s) && s.outstanding == Some(p) && t in Delta(p.actions)
    ensures Delta(p.actions)[t] != {}
  {
    hide Inv, Delta;
    BatchUnique(hw, opt, s, p);
    DeltaNonEmpty(p.actions, t);
  }

  lemma LandingIs(u: State, p: Proposal, t: State, masks: map<int, Mask>, live: set<int>, now: nat, committed: set<int>, vanished: set<int>)
    requires committed + vanished == TidsOf(p.actions) && committed !! vanished && t == Concluded(u, p, committed, vanished, now) && p.ready
    requires forall a :: a in p.actions ==> a.id.tid in live
    requires forall v :: v in vanished ==> v !in live || v !in masks
    ensures Answered(u, Ok(p), t, masks, now, ActionCommitted)
  {
    hide Concluded;
    forall v | v in vanished
      ensures v !in masks.Keys
    {
      assert v in TidsOf(p.actions);
    }
    assert Landing(u, p, t, masks, now, committed, vanished);
  }

  /** What a landed batch means for placement and agreement. */
  lemma SettleFacts(hw: Machine, opt: Options, s0: State, p: Proposal, committed: set<int>, vanished: set<int>, now: nat,
                    m0: map<int, Mask>, m: map<int, Mask>, acted0: set<int>, strayed: set<int>, exact: bool)
    requires Inv(hw, opt, s0) && s0.outstanding == Some(p) && s0.history.clock <= now
    requires forall a :: a in p.actions ==> a.id.tid in s0.book.threads
    requires committed + vanished == TidsOf(p.actions) && committed !! vanished && Written(m0, m, Delta(p.actions), committed)
    ensures committed <= s0.book.threads.Keys
    ensures var t := Concluded(s0, p, committed, vanished, now);
      && t.place.placement.Keys <= s0.place.placement.Keys + committed && t.book.threads.Keys <= s0.book.threads.Keys
      && Lands(s0.place.placement, t.place.placement, p.actions, vanished)
      && (Consistent(s0.place.placement, m0, acted0, strayed, exact) ==>
            Consistent(t.place.placement, m, acted0 + committed, strayed - committed, exact))
  {
    hide *;
    var u, t := RemovedAll(s0, vanished), Concluded(s0, p, committed, vanished, now);
    Managed(p.actions, s0.book.threads.Keys, committed, vanished);
    ConcludedInv(hw, opt, s0, p, committed, vanished, now);
    RemovedAllFrame(s0, vanished);
    SubMapWithout(s0.place.placement, vanished);
    OutcomeGrows(u, p.actions, committed);
    InvPlaced(hw, opt, s0);
    assert u.book.threads.Keys == s0.book.threads.Keys - vanished;
    Landed(s0, u, p.actions, t.place.placement, committed, vanished);
    if Consistent(s0.place.placement, m0, acted0, strayed, exact) {
      AgreesWritten(s0, u, p.actions, t.place.placement, m0, m, acted0, strayed, committed, exact);
    }
  }

  lemma BatchWithin(actions: seq<Action>, tids: set<int>)
    requires forall a :: a in actions ==> a.id.tid in tids
    ensures TidsOf(actions) <= tids
  {
  }

  lemma OutsideWider(m0: map<int, Mask>, m: map<int, Mask>, few: set<int>, many: set<int>)
    requires Outside(m0, m, few) && few <= many
    ensures Outside(m0, m, many)
  {
  }

  lemma Managed(actions: seq<Action>, tids: set<int>, committed: set<int>, vanished: set<int>)
    requires committed + vanished == TidsOf(actions) && forall a :: a in actions ==> a.id.tid in tids
    ensures committed <= tids
  {
    forall t | t in committed
      ensures t in tids
    {
      assert t in TidsOf(actions);
    }
  }

  // ----- whole runs -----

  /** What happens: threads come and go, or a window is solved. */
  datatype Event =
    | Elapses(ended: set<int>, started: map<int, Mask>)
    | Solves(input: seq<Thread>, edges: seq<Edge>, ranked: seq<int>, healthy: bool)

  predicate Sensible(e: Event) {
    e.Solves? ==> UniqueTids(e.input) && Distinct(e.ranked)
  }

  /** Solver, cohort, masks and written threads at one time. */
  datatype World = World(state: State, cohort: set<int>, masks: map<int, Mask>, acted: set<int>)

  /** The thread ids that were ever seen before the k-th event. */
  function SeenIds(first: set<int>, script: seq<Event>, k: nat): set<int>
    requires k <= |script|
  {
    if k == 0 then first
    else SeenIds(first, script, k - 1) + (if script[k - 1].Elapses? then script[k - 1].started.Keys else {})
  }

  /** What one event makes of the world. */
  ghost predicate Happens(hw: Machine, opt: Options, w: World, e: Event, seen: set<int>, now: nat, v: World, report: Report) {
    match e
    case Elapses(ended, started) => v == w.(masks := w.masks - ended + Fresh(started, seen))
    case Solves(input, edges, ranked, healthy) =>
      && Handled(hw, opt, w.state, v.state, w.cohort, v.masks, input, edges, ranked, healthy, now, report)
      && (report != RestoreFailed ==> v.cohort == TidSet(input))
      && Outside(w.masks, v.masks, w.acted + TidSet(input)) && v.acted <= w.acted + TidSet(input)
  }

  /** Every live thread that the solver has placed was written and has exactly its CPU as mask. */
  ghost predicate InStep(w: World) {
    forall t :: t in w.state.place.placement && t in w.masks ==> w.masks[t] == {w.state.place.placement[t]} && t in w.acted
  }

  /** The worlds of a run. */
  ghost predicate History(hw: Machine, opt: Options, first: set<int>, script: seq<Event>, clock: seq<nat>, worlds: seq<World>, reports: seq<Report>, n: nat) {
    && n <= |script| == |clock| && |worlds| == n + 1 && |reports| == n
    && worlds[0].state == Initial() && worlds[0].cohort == {} && worlds[0].acted == {}
    && (forall i :: 0 <= i < n ==> Happens(hw, opt, worlds[i], script[i], SeenIds(first, script, i), clock[i], worlds[i + 1], reports[i]))
  }

  lemma HistoryMore(hw: Machine, opt: Options, first: set<int>, script: seq<Event>, clock: seq<nat>, worlds: seq<World>, reports: seq<Report>,
                    n: nat, w: World, report: Report)
    requires History(hw, opt, first, script, clock, worlds, reports, n) && n < |script|
    requires Happens(hw, opt, worlds[n], script[n], SeenIds(first, script, n), clock[n], w, report)
    ensures History(hw, opt, first, script, clock, worlds + [w], reports + [report], n + 1)
  {
    hide Happens, SeenIds;
    var more, said := worlds + [w], reports + [report];
    forall i | 0 <= i < n + 1
      ensures Happens(hw, opt, more[i], script[i], SeenIds(first, script, i), clock[i], more[i + 1], said[i])
    {
      if i < n {
        assert Happens(hw, opt, worlds[i], script[i], SeenIds(first, script, i), clock[i], worlds[i + 1], reports[i]);
      }
    }
  }

  lemma ConsistentElapsed(placement: map<int, int>, m0: map<int, Mask>, m: map<int, Mask>, acted: set<int>, strayed: set<int>,
                          exact: bool, ended: set<int>, started: map<int, Mask>, seen: set<int>)
    requires Consistent(placement, m0, acted, strayed, exact)
    requires m == m0 - ended + Fresh(started, seen) && placement.Keys <= seen
    ensures Consistent(placement, m, acted, strayed, exact)
  {
    forall t | t in placement && t in m
      ensures t in acted && (t in strayed || m[t] == {placement[t]})
    {
      assert t in placement.Keys;
      assert t !in Fresh(started, seen);
    }
  }

  lemma ConsistentMeans(w: World, strayed: set<int>, exact: bool)
    requires Consistent(w.state.place.placement, w.masks, w.acted, strayed, exact)
    ensures exact ==> InStep(w)
  {
  }

  lemma SeenGrows(m0: map<int, Mask>, ended: set<int>, started: map<int, Mask>, seen: set<int>)
    requires m0.Keys <= seen
    ensures (m0 - ended + Fresh(started, seen)).Keys <= seen + started.Keys
  {
  }

  lemma HistoryStarts(hw: Machine, opt: Options, first: set<int>, script: seq<Event>, clock: seq<nat>, w: World)
    requires |script| == |clock| && w.state == Initial() && w.cohort == {} && w.acted == {}
    ensures History(hw, opt, first, script, clock, [w], [], 0)
  {
  }

  lemma SeenStarts(first: set<int>, script: seq<Event>)
    ensures SeenIds(first, script, 0) == first
  {
  }

  lemma SeenNext(first: set<int>, script: seq<Event>, k: nat)
    requires k < |script|
    ensures SeenIds(first, script, k + 1) == SeenIds(first, script, k) + (if script[k].Elapses? then script[k].started.Keys else {})
  {
  }

  /** One event of a run. */
  method TakeEvent(runtime: Runtime, e: Event, seen: set<int>, now: nat) returns (report: Report)
    requires runtime.Ready() && runtime.Agree() && Sensible(e) && runtime.solver.history.clock <= now
    requires runtime.actuator.kernel.masks.Keys <= seen && runtime.solver.place.placement.Keys <= seen
    modifies runtime, runtime.solver, runtime.actuator, runtime.actuator.kernel
    ensures Happens(runtime.solver.hw, runtime.solver.opt, old(runtime.Look()), e, seen, now, runtime.Look(), report)
    ensures old(runtime.actuator.kernel.calls) <= runtime.actuator.kernel.calls
    ensures
      if report == RestoreFailed || report == ActionFailed(false)
      then Heard(runtime.actuator.kernel.oracle, old(runtime.actuator.kernel.calls), runtime.actuator.kernel.calls, Refused)
      else runtime.Ready() && runtime.Agree() && runtime.solver.history.clock <= now
    ensures runtime.actuator.kernel.masks.Keys <= seen + (if e.Elapses? then e.started.Keys else {})
    ensures runtime.solver.place.placement.Keys <= seen
  {
    hide Inv, Consistent, Remembers, Kernel.Exact, TidSet, Fresh, Heard, Handled, UniqueTids, Distinct, Outside;
    match e
    case Elapses(ended, started) =>
      ghost var m0 := runtime.actuator.kernel.masks;
      SeenGrows(m0, ended, started, seen);
      ConsistentElapsed(runtime.solver.place.placement, m0, m0 - ended + Fresh(started, seen), runtime.actuator.acted, runtime.strayed,
                        runtime.actuator.kernel.Exact(), ended, started, seen);
      runtime.actuator.kernel.Elapse(ended, Fresh(started, seen));
      report := Waiting;
    case Solves(input, edges, ranked, healthy) =>
      report := runtime.Window(input, edges, ranked, healthy, now);
  }

  /** Over every run without reused thread ids and without mask changes from outside, each live
  thread that the solver has placed has exactly its CPU as mask and is recorded as written by the
  policy, after every event.  A run ends early only after a restore or a rollback failed, and then
  the kernel has refused a call. */
  method AnyRun(hw: Machine, opt: Options, kernel: Kernel, script: seq<Event>, clock: seq<nat>)
    returns (runtime: Runtime, done: nat, broken: bool, ghost worlds: seq<World>, ghost reports: seq<Report>)
    requires opt.Valid() && |clock| == |script|
    requires forall i :: 0 <= i < |script| ==> Sensible(script[i])
    requires forall i, j :: 0 <= i < j < |clock| ==> clock[i] <= clock[j]
    modifies kernel
    ensures fresh(runtime) && runtime.actuator.kernel == kernel && done <= |script| && (broken || done == |script|)
    ensures History(hw, opt, old(kernel.masks.Keys), script, clock, worlds, reports, done) && worlds[0].masks == old(kernel.masks)
    ensures !broken ==> runtime.Ready() && runtime.Agree() && worlds[done] == runtime.Look()
    ensures kernel.Exact() ==> forall i :: 0 <= i <= done ==> InStep(worlds[i])
    ensures broken ==> Heard(kernel.oracle, old(kernel.calls), kernel.calls, Refused)
    ensures (forall n: nat :: !kernel.oracle(n).Refuse?) ==> !broken
  {
    hide Inv, Consistent, Remembers, Kernel.Exact, Sensible, TidSet, Fresh, SeenIds, History, Heard, InStep, Happens;
    var solver := new Solver(hw, opt);
    var actuator := new Actuator(kernel);
    runtime := new Runtime(solver, actuator);
    ghost var first, from := kernel.masks.Keys, kernel.calls;
    var seen := kernel.masks.Keys;
    done, broken := 0, false;
    worlds, reports := [runtime.Look()], [];
    HistoryStarts(hw, opt, first, script, clock, runtime.Look());
    SeenStarts(first, script);
    ConsistentMeans(runtime.Look(), runtime.strayed, kernel.Exact());
    while done < |script|
      invariant done <= |script| && fresh(runtime) && fresh(solver) && fresh(actuator) && !broken
      invariant runtime.solver == solver && runtime.actuator == actuator && actuator.kernel == kernel
      invariant solver.hw == hw && solver.opt == opt && from <= kernel.calls
      invariant runtime.Ready() && runtime.Agree()
      invariant |worlds| == done + 1 && worlds[done] == runtime.Look() && worlds[0].masks == old(kernel.masks)
      invariant History(hw, opt, first, script, clock, worlds, reports, done)
      invariant kernel.Exact() ==> forall i :: 0 <= i <= done ==> InStep(worlds[i])
      invariant seen == SeenIds(first, script, done) && kernel.masks.Keys <= seen && solver.place.placement.Keys <= seen
      invariant done > 0 ==> solver.history.clock <= clock[done - 1]
      invariant done == 0 ==> solver.history.clock == 0
    {
      ghost var c1 := kernel.calls;
      var report := TakeEvent(runtime, script[done], seen, clock[done]);
      HeardGrows(kernel.oracle, from, c1, kernel.calls);
      if report == RestoreFailed || report == ActionFailed(false) {
        RefusalHeard(kernel.oracle, from, kernel.calls);
        return runtime, done, true, worlds, reports;
      }
      HistoryMore(hw, opt, first, script, clock, worlds, reports, done, runtime.Look(), report);
      worlds, reports := worlds + [runtime.Look()], reports + [report];
      ConsistentMeans(runtime.Look(), runtime.strayed, kernel.Exact());
      if script[done].Elapses? {
        seen := seen + script[done].started.Keys;
      }
      SeenNext(first, script, done);
      done := done + 1;
    }
  }

  /** The thread is in no window of the first `k` events. */
  predicate Unselected(script: seq<Event>, k: nat, t: int)
    requires k <= |script|
  {
    forall i :: 0 <= i < k && script[i].Solves? ==> t !in TidSet(script[i].input)
  }

  lemma {:induction false} SeenFirst(first: set<int>, script: seq<Event>, k: nat)
    requires k <= |script|
    ensures first <= SeenIds(first, script, k)
  {
    if k > 0 {
      SeenFirst(first, script, k - 1);
    }
  }

  /** In any run, a thread that no window selects is never written, and as long as it lives it has the
  mask it had at the start. */
  lemma {:induction false} UnselectedUntouched(hw: Machine, opt: Options, first: set<int>, script: seq<Event>, clock: seq<nat>,
                                               worlds: seq<World>, reports: seq<Report>, n: nat, k: nat, t: int)
    requires History(hw, opt, first, script, clock, worlds, reports, n) && k <= n && t in first && Unselected(script, k, t)
    ensures t !in worlds[k].acted
    ensures t in worlds[k].masks ==> t in worlds[0].masks && worlds[k].masks[t] == worlds[0].masks[t]
    decreases k
  {
    hide Handled, SeenIds, TidSet;
    if k > 0 {
      var i := k - 1;
      assert Happens(hw, opt, worlds[i], script[i], SeenIds(first, script, i), clock[i], worlds[i + 1], reports[i]);
      UnselectedUntouched(hw, opt, first, script, clock, worlds, reports, n, i, t);
      SeenFirst(first, script, i);
      if script[i].Elapses? {
        assert t !in Fresh(script[i].started, SeenIds(first, script, i));
      }
    }
  }
}
