/** The window step of src/runtime.cpp that joins the domain solver and the actuator
(lines 1181-1307), and when placement and kernel agree after it. */
module DomainRuntime {
  import opened Lists
  import opened Topology
  import opened Threads
  import opened NodeChoice
  import opened Evidence
  import opened Domains
  import opened DomainProposal
  import opened DomainWindow
  import opened DomainSolver
  import Act = Actuator

  /** Every live thread in the placement has its mask, unless a refused write has left another. */
  ghost predicate Agrees(placement: map<int, Mask>, masks: map<int, Mask>, strayed: set<int>) {
    forall t :: t in placement && t in masks ==> t in strayed || masks[t] == placement[t]
  }

  /** The masks a window was given are those of the threads that are not placed. */
  ghost predicate Observed(x: Input, placement: map<int, Mask>, masks: map<int, Mask>) {
    forall t :: t in x.allowed && t in masks && t !in placement ==> x.allowed[t] == masks[t]
  }

  /** What a ready proposal plans and writes. */
  ghost predicate Complete(x: Input, placement: map<int, Mask>, p: Proposal) {
    && p.released == placement.Keys - p.planned.Keys && (forall t :: t in p.planned ==> p.planned[t] != {})
    && p.inherited == InheritedOf(x, placement, p.planned) && p.delta == Writes(x, placement, p.planned)
  }

  /** Releasing threads leaves the others as they were. */
  lemma AgreesReleased(placement: map<int, Mask>, m0: map<int, Mask>, m: map<int, Mask>,
                       restore: map<int, Mask>, released: set<int>, gone: set<int>, strayed: set<int>)
    requires Agrees(placement, m0, strayed) && Act.Returned(m0, m, restore, released, {}) && released <= gone
    ensures Agrees(placement - gone, m, strayed) && m.Keys <= m0.Keys
  {
  }

  /** After a committed window every live placed thread has its mask again. */
  lemma AgreesLanding(x: Input, placement: map<int, Mask>, p: Proposal, m0: map<int, Mask>, m: map<int, Mask>,
                      committed: set<int>, vanished: set<int>, strayed: set<int>)
    requires Complete(x, placement, p) && Observed(x, placement, m0) && Agrees(placement - p.released, m0, strayed)
    requires Act.Written(m0, m, p.delta, committed) && committed + vanished == p.delta.Keys && committed !! vanished
    requires p.delta != map[] ==> committed != {}
    ensures Agrees(Landing(placement - vanished, p, committed), m, strayed - committed)
  {
    var start := placement - vanished;
    var landed := Landing(start, p, committed);
    forall t | t in landed && t in m
      ensures t in strayed - committed || m[t] == landed[t]
    {
      if t in committed {
        assert t in p.delta.Keys;
        assert landed[t] == p.planned[t];
      } else {
        assert t in p.delta ==> t in vanished by {
          assert t in p.delta ==> t in committed + vanished;
        }
        NotWritten(x, placement, p, committed, vanished, t);
      }
    }
  }

  lemma NotWritten(x: Input, placement: map<int, Mask>, p: Proposal, committed: set<int>, vanished: set<int>, t: int)
    requires Complete(x, placement, p) && committed + vanished == p.delta.Keys && committed !! vanished
    requires p.delta != map[] ==> committed != {}
    requires t in Landing(placement - vanished, p, committed) && t !in committed
    requires t in p.delta ==> t in vanished
    ensures t !in p.delta && t in p.planned && Landing(placement - vanished, p, committed)[t] == p.planned[t]
    ensures t in placement ==> t !in p.released && placement[t] == p.planned[t]
    ensures t !in placement ==> t in x.allowed && x.allowed[t] == p.planned[t]
  {
  }

  lemma CompleteFrom(w: DomainSolver.Window, m: Memory, m': Memory, committed: seq<Domain>, placement: map<int, Mask>,
                     signatures: seq<Signature>, p: Proposal)
    requires Proposes(w, m, m', committed, placement, signatures, p) && p.ready
    ensures Complete(w.x, placement, p)
  {
    ResultAlike(w.x, m, m', committed, w.groups, w.t, p.domains, p.valid, p.planned);
    hide WindowPlan, GroupsApart, GroupsPeopled, InheritedOf, Writes, Target;
    forall t | t in p.planned
      ensures p.planned[t] != {}
    {
      var i :| 0 <= i < |w.t.sorted| && w.t.sorted[i].verdict == Sound && t in w.t.sorted[i].tids;
    }
  }

  /** Agreement, with nothing strayed under a kernel whose refusals change nothing. */
  ghost predicate Consistent(placement: map<int, Mask>, masks: map<int, Mask>, strayed: set<int>, exact: bool) {
    Agrees(placement, masks, strayed) && (exact ==> strayed == {})
  }

  /** A batch that failed after threads were released: placement and masks agree exactly if every
  released thread had its recorded mask as its own, and the refused call left nothing else. */
  lemma AgreesAfterFailure(placement: map<int, Mask>, m0: map<int, Mask>, m1: map<int, Mask>, m2: map<int, Mask>,
                           restore: map<int, Mask>, released: set<int>, refused: int, left: Option<Mask>)
    requires Agrees(placement, m0, {}) && Act.Returned(m0, m1, restore, released, {}) && Act.AsBefore(m1, m2, refused, left)
    ensures Agrees(placement, m2, {}) <==> forall t :: t in placement && t in m2 ==>
      if t == refused && left.Some? then left.value == placement[t] else t in released ==> restore[t] == placement[t]
  {
    forall t | t in placement && t in m2
      ensures m2[t] == (if t == refused && left.Some? then left.value else if t in released then restore[t] else placement[t])
    {
      assert t in m1;
    }
  }

  /** How a window ends. */
  datatype Report =
    | RestoreFailed
    | Unrestricted
    | NotReady
    | Stable
    | ActionFailed(undone: bool, released: bool)
    | ActionsVanished
    | ActionCommitted

  /** A committed batch: what is gone is removed first. */
  ghost predicate Lands(u: State, t: State, p: Proposal, masks: map<int, Mask>, now: nat, committed: set<int>, vanished: set<int>) {
    && committed + vanished == p.delta.Keys && committed !! vanished && vanished !! masks.Keys
    && (p.delta != map[] ==> committed != {})
    && Landed(u.(placement := u.placement - vanished), t, p, now, committed)
  }

  /** Nothing is to be written or released. */
  predicate Idle(u: State, p: Proposal) {
    p.delta == map[] && p.released == {} && p.planned == u.placement
  }

  /** What a proposal comes to. */
  ghost predicate Closed(u: State, t: State, p: Proposal, masks: map<int, Mask>, now: nat, report: Report) {
    match report
    case RestoreFailed => (!p.valid || (p.ready && !Idle(u, p))) && t == u.(outstanding := None)
    case Unrestricted => !p.valid && Landed(u, t, p, now, {})
    case NotReady => p.valid && !p.ready && t == u.(outstanding := None)
    case Stable => p.ready && Idle(u, p) && t == u.(outstanding := None)
    case ActionFailed(_, released) => p.ready && !Idle(u, p) && released == (p.released != {}) && t == u.(outstanding := None)
    case ActionsVanished =>
      && p.ready && p.delta != map[] && p.delta.Keys !! masks.Keys
      && t == u.(outstanding := None, placement := u.placement - p.delta.Keys - p.released)
    case ActionCommitted => p.ready && !Idle(u, p) && exists committed, vanished :: Lands(u, t, p, masks, now, committed, vanished)
  }

  /** What one window makes of the solver. */
  ghost predicate Handled(hw: Machine, thr: Thresholds, lim: Limits, s: State, t: State, w: DomainSolver.Window, p: Proposal, masks: map<int, Mask>,
                          threads: seq<Thread>, edges: seq<Edge>, allowed: map<int, Mask>, now: nat, report: Report)
  {
    exists u :: Drawn(hw, thr, lim, s, u, w, p, threads, edges, allowed, now) && Closed(u, t, p, masks, now, report)
  }

  class Runtime {
    const solver: Solver
    const actuator: Act.Actuator
    ghost var strayed: set<int>

    ghost predicate Ready()
      reads this, solver, actuator
    {
      solver.Valid() && actuator.Valid() && solver.outstanding.None?
    }

    ghost predicate Agree()
      reads this, solver, actuator, actuator.kernel
    {
      Consistent(solver.placement, actuator.kernel.masks, strayed, actuator.kernel.Exact())
    }

    ghost function Look(): World
      reads this, solver, actuator, actuator.kernel
    {
      World(solver.S(), actuator.kernel.masks, actuator.acted)
    }

    constructor (solver: Solver, actuator: Act.Actuator)
      requires solver.Valid() && actuator.Valid() && solver.outstanding.None? && solver.placement == map[]
      ensures this.solver == solver && this.actuator == actuator && Ready() && Agree()
    {
      this.solver, this.actuator, strayed := solver, actuator, {};
    }

    method RemoveAll(tids: set<int>)
      requires solver.Valid()
      modifies solver`placement
      ensures solver.Valid() && solver.S() == old(solver.S()).(placement := old(solver.placement) - tids)
    {
      hide Solver.Valid;
      ghost var before := solver.placement;
      var todo := tids;
      while todo != {}
        invariant solver.Valid() && todo <= tids && solver.placement == before - (tids - todo)
        decreases todo
      {
        Inhabited(todo);
        var t := Least(todo);
        solver.RemoveThread(t);
        todo := todo - {t};
      }
    }

    /** Lines 1183-1191 and 1238-1257: released threads get their own masks back.  It fails only
    because the kernel refuses a call. */
    method Release(tids: set<int>) returns (ok: bool, ghost released: set<int>)
      requires actuator.Valid()
      modifies actuator, actuator.kernel
      ensures actuator.Valid() && released <= tids * old(actuator.acted)
      ensures actuator.kernel.calls == old(actuator.kernel.calls) + |tids * old(actuator.acted)|
      ensures actuator.kernel.masks.Keys != old(actuator.kernel.masks).Keys ==>
        Act.Heard(actuator.kernel.oracle, old(actuator.kernel.calls), actuator.kernel.calls, Act.Missing)
      ensures ok ==> released == tids * old(actuator.acted)
      ensures ok ==> Act.Returned(old(actuator.kernel.masks), actuator.kernel.masks, old(actuator.restoreMasks), released, {})
      ensures !ok ==> Act.Heard(actuator.kernel.oracle, old(actuator.kernel.calls), actuator.kernel.calls, Act.Refused)
      ensures actuator.kernel.masks.Keys <= old(actuator.kernel.masks).Keys
      ensures Act.Outside(old(actuator.kernel.masks), actuator.kernel.masks, old(actuator.acted)) && actuator.acted <= old(actuator.acted)
    {
      hide Act.Actuator.Valid, Act.Returned, Act.Forgets, Act.Origin, Act.Heard, Act.Outside;
      ghost var m0, restore0, acted0 := actuator.kernel.masks, actuator.restoreMasks, actuator.acted;
      Act.ReturnedNothing(m0, restore0);
      Act.OutsideSelf(m0, acted0);
      released := {};
      if tids == {} {
        assert tids * acted0 == {};
        return true, {};
      }
      var result;
      result, released := actuator.Restore(tids);
      Act.ReturnedMeans(m0, actuator.kernel.masks, restore0, released, tids * acted0 - released);
      Act.ReturnedOutside(m0, actuator.kernel.masks, restore0, released, tids * acted0 - released, acted0);
      ok := result.failed == 0;
      if ok {
        assert tids * acted0 - released == {};
      }
    }

    /** Lines 1258-1302, after the release: writes the batch, then commits or discards.  It fails
    only because the kernel refuses a call. */
    method Write(p: Proposal, live: set<int>, now: nat, ghost x: Input, ghost m0: map<int, Mask>,
                 ghost restore0: map<int, Mask>, ghost gone: set<int>)
      returns (report: Report)
      requires solver.Valid() && actuator.Valid() && solver.outstanding == Some(p) && solver.clock <= now
      requires p.ready && p.valid && !Idle(solver.S(), p) && p.planned.Keys <= live
      requires Complete(x, solver.placement, p) && Observed(x, solver.placement, m0) && gone <= p.released
      requires Act.Returned(m0, actuator.kernel.masks, restore0, gone, {})
      modifies this, solver, actuator, actuator.kernel
      ensures solver.Valid() && actuator.Valid() && solver.outstanding.None? && solver.clock <= now
      ensures report.ActionFailed? || report == ActionsVanished || report == ActionCommitted
      ensures Closed(old(solver.S()), solver.S(), p, actuator.kernel.masks, now, report)
      ensures report.ActionFailed? ==> Act.Heard(actuator.kernel.oracle, old(actuator.kernel.calls), actuator.kernel.calls, Act.Refused)
      ensures (report == ActionCommitted && p.delta != map[]) || (report.ActionFailed? && !report.undone) ==>
        Act.Heard(actuator.kernel.oracle, old(actuator.kernel.calls), actuator.kernel.calls, Act.Taken)
      ensures actuator.kernel.masks.Keys != old(actuator.kernel.masks).Keys ==>
        Act.Heard(actuator.kernel.oracle, old(actuator.kernel.calls), actuator.kernel.calls, Act.Missing)
      ensures old(Consistent(solver.placement, m0, strayed, actuator.kernel.Exact())) ==>
        && (!report.ActionFailed? || (report.undone && gone == {}) ==> Agree())
        && (report.ActionFailed? && report.undone && actuator.kernel.Exact() ==>
              (Agree() <==> Kept(old(solver.placement), actuator.kernel.masks, restore0, gone)))
      ensures solver.placement.Keys <= old(solver.placement).Keys + p.planned.Keys
      ensures actuator.kernel.masks.Keys <= old(actuator.kernel.masks).Keys && old(actuator.kernel.calls) <= actuator.kernel.calls
      ensures Act.Outside(old(actuator.kernel.masks), actuator.kernel.masks, p.delta.Keys) && actuator.acted <= old(actuator.acted) + p.delta.Keys
    {
      hide *;
      ghost var m1, c0 := actuator.kernel.masks, actuator.kernel.calls;
      var result, refused, left := actuator.Apply(p.delta, live);
      report := Conclude(p, live, result, now, x, refused, left, m0, m1, restore0, gone, c0);
    }

    /** Lines 1276-1302: what the solver learns of a batch. */
    method Conclude(p: Proposal, live: set<int>, result: Act.ApplyResult, now: nat, ghost x: Input, ghost refused: int, ghost left: Option<Mask>,
                    ghost m0: map<int, Mask>, ghost m1: map<int, Mask>, ghost restore0: map<int, Mask>, ghost gone: set<int>, ghost c0: nat)
      returns (report: Report)
      requires solver.Valid() && solver.outstanding == Some(p) && solver.clock <= now && p.ready && !Idle(solver.S(), p) && p.planned.Keys <= live
      requires Complete(x, solver.placement, p) && Observed(x, solver.placement, m0) && gone <= p.released
      requires Act.Returned(m0, m1, restore0, gone, {})
      requires result.success ==>
        && Act.Written(m1, actuator.kernel.masks, p.delta, result.committed)
        && result.committed + result.vanished == p.delta.Keys && result.committed !! result.vanished
        && (forall t :: t in result.vanished ==> t !in live || t !in actuator.kernel.masks)
      requires !result.success ==>
        && refused in p.delta && Act.Rejected(actuator.kernel.oracle, c0, actuator.kernel.calls, p.delta[refused], left)
        && (result.rollbackSuccess ==> Act.AsBefore(m1, actuator.kernel.masks, refused, left))
      modifies this`strayed, solver
      ensures solver.Valid() && solver.outstanding.None? && solver.clock <= now
      ensures report == (if !result.success then ActionFailed(result.rollbackSuccess, p.released != {})
                         else if p.delta != map[] && result.committed == {} then ActionsVanished else ActionCommitted)
      ensures Closed(old(solver.S()), solver.S(), p, actuator.kernel.masks, now, report)
      ensures !result.success ==> Act.Heard(actuator.kernel.oracle, c0, actuator.kernel.calls, Act.Refused)
      ensures old(Consistent(solver.placement, m0, strayed, actuator.kernel.Exact())) ==>
        && (!report.ActionFailed? || (report.undone && gone == {}) ==> Agree())
        && (report.ActionFailed? && report.undone && actuator.kernel.Exact() ==>
              (Agree() <==> Kept(old(solver.placement), actuator.kernel.masks, restore0, gone)))
      ensures solver.placement.Keys <= old(solver.placement).Keys + p.planned.Keys
    {
      hide *;
      if !result.success {
        Fail(p, now, x, refused, left, result.rollbackSuccess, m0, m1, restore0, gone, c0);
        report := ActionFailed(result.rollbackSuccess, p.released != {});
      } else {
        report := Land(p, live, result.committed, result.vanished, now, x, m0, m1, restore0, gone);
      }
    }

    method Land(p: Proposal, live: set<int>, committed: set<int>, vanished: set<int>, now: nat, ghost x: Input,
                ghost m0: map<int, Mask>, ghost m1: map<int, Mask>, ghost restore0: map<int, Mask>, ghost gone: set<int>)
      returns (report: Report)
      requires solver.Valid() && solver.outstanding == Some(p) && solver.clock <= now && p.ready && !Idle(solver.S(), p) && p.planned.Keys <= live
      requires Complete(x, solver.placement, p) && Observed(x, solver.placement, m0) && gone <= p.released
      requires Act.Returned(m0, m1, restore0, gone, {}) && Act.Written(m1, actuator.kernel.masks, p.delta, committed)
      requires committed + vanished == p.delta.Keys && committed !! vanished
      requires forall t :: t in vanished ==> t !in live || t !in actuator.kernel.masks
      modifies this`strayed, solver
      ensures solver.Valid() && solver.outstanding.None? && solver.clock <= now
      ensures report == if p.delta != map[] && committed == {} then ActionsVanished else ActionCommitted
      ensures Closed(old(solver.S()), solver.S(), p, actuator.kernel.masks, now, report)
      ensures solver.placement.Keys <= old(solver.placement).Keys + p.planned.Keys
      ensures Consistent(old(solver.placement), m0, old(strayed), actuator.kernel.Exact()) ==> Agree()
    {
      hide *;
      ghost var place0, strayed0, exact := solver.placement, strayed, actuator.kernel.Exact();
      if Consistent(place0, m0, strayed, exact) {
        ConsistentCommit(x, place0, p, m0, m1, actuator.kernel.masks, restore0, gone, committed, vanished, strayed, exact);
      }
      VanishedGone(x, place0, p, live, actuator.kernel.masks, committed, vanished);
      report := Settle(p, committed, vanished, now);
      AgreeMeans();
    }

    lemma AgreeMeans()
      ensures Agree() <==> Consistent(solver.placement, actuator.kernel.masks, strayed, actuator.kernel.Exact())
    {
    }

    /** Lines 1279-1283: the solver withdraws a batch that was not written. */
    method Fail(p: Proposal, now: nat, ghost x: Input, ghost refused: int, ghost left: Option<Mask>, undone: bool,
                ghost m0: map<int, Mask>, ghost m1: map<int, Mask>, ghost restore0: map<int, Mask>, ghost gone: set<int>, ghost c0: nat)
      requires solver.Valid() && solver.outstanding == Some(p) && p.ready && !Idle(solver.S(), p) && Complete(x, solver.placement, p)
      requires Act.Returned(m0, m1, restore0, gone, {}) && refused in p.delta
      requires Act.Rejected(actuator.kernel.oracle, c0, actuator.kernel.calls, p.delta[refused], left)
      requires undone ==> Act.AsBefore(m1, actuator.kernel.masks, refused, left)
      modifies this`strayed, solver`outstanding
      ensures solver.Valid() && solver.outstanding.None?
      ensures Closed(old(solver.S()), solver.S(), p, actuator.kernel.masks, now, ActionFailed(undone, p.released != {}))
      ensures Act.Heard(actuator.kernel.oracle, c0, actuator.kernel.calls, Act.Refused)
      ensures undone && Consistent(solver.placement, m0, old(strayed), actuator.kernel.Exact()) ==>
        && (gone == {} ==> Agree())
        && (actuator.kernel.Exact() ==> (Agree() <==> Kept(solver.placement, actuator.kernel.masks, restore0, gone)))
    {
      hide *;
      ghost var s0, exact := solver.S(), actuator.kernel.Exact();
      solver.Fields();
      AskedFor(x, solver.placement, p, refused);
      Act.RejectedHeard(actuator.kernel.oracle, c0, actuator.kernel.calls, p.delta[refused], left);
      actuator.kernel.ExactMeans();
      solver.Discard(p);
      solver.Fields();
      ClosedFailed(s0, p, actuator.kernel.masks, now, undone);
      if undone && Consistent(solver.placement, m0, strayed, exact) {
        ConsistentFailure(solver.placement, m0, m1, actuator.kernel.masks, restore0, gone, strayed, exact, refused, left);
      }
      strayed := Strays(strayed, refused, left);
      AgreeMeans();
    }

    /** Lines 1292-1301: what is gone is removed, what was written is committed. */
    method Settle(p: Proposal, committed: set<int>, vanished: set<int>, now: nat) returns (report: Report)
      requires solver.Valid() && solver.outstanding == Some(p) && solver.clock <= now && p.ready && !Idle(solver.S(), p)
      requires committed + vanished == p.delta.Keys && committed !! vanished && vanished !! actuator.kernel.masks.Keys
      modifies this`strayed, solver
      ensures solver.Valid() && solver.outstanding.None? && solver.clock <= now
      ensures strayed == old(strayed) - committed
      ensures Closed(old(solver.S()), solver.S(), p, actuator.kernel.masks, now, report)
      ensures report == if p.delta != map[] && committed == {} then ActionsVanished else ActionCommitted
      ensures solver.placement == if p.delta != map[] && committed == {} then old(solver.placement) - vanished - p.released
                                  else Landing(old(solver.placement) - vanished, p, committed)
      ensures solver.placement.Keys <= old(solver.placement).Keys + p.planned.Keys
    {
      hide *;
      ghost var u := solver.S();
      solver.Fields();
      RemoveAll(vanished);
      solver.Fields();
      strayed := strayed - committed;
      if p.delta != map[] && committed == {} {
        VanishedAll(u.placement, p.delta, p.released, vanished);
        RemoveAll(p.released);
        solver.Fields();
        solver.Discard(p);
        solver.Fields();
        report := ActionsVanished;
        ClosedVanished(u, solver.S(), p, actuator.kernel.masks, now);
      } else {
        LandingKeys(solver.placement, p, committed);
        var ok := solver.Commit(p, now, committed);
        solver.Fields();
        LandedParts(u.(placement := u.placement - vanished), solver.S(), p, now, committed);
        report := ActionCommitted;
        ClosedCommitted(u, solver.S(), p, actuator.kernel.masks, now, committed, vanished);
      }
    }

    /** One solve window in active mode. */
    method Window(threads: seq<Thread>, edges: seq<Edge>, allowed: map<int, Mask>, now: nat)
      returns (report: Report, ghost w: DomainSolver.Window, ghost p': Proposal, ghost gone: set<int>, ghost restore: map<int, Mask>)
      requires Ready() && UniqueTids(threads) && solver.clock <= now
      requires forall t :: t in allowed && t in actuator.kernel.masks && t !in solver.placement ==> allowed[t] == actuator.kernel.masks[t]
      modifies this, solver, actuator, actuator.kernel
      ensures report != RestoreFailed ==> Ready() && solver.clock <= now
      ensures Handled(solver.hw, solver.thr, solver.lim, old(solver.S()), solver.S(), w, p', actuator.kernel.masks, threads, edges, allowed, now, report)
      ensures report == RestoreFailed || report.ActionFailed? ==>
        Act.Heard(actuator.kernel.oracle, old(actuator.kernel.calls), actuator.kernel.calls, Act.Refused)
      ensures old(Agree()) && report != RestoreFailed && (report.ActionFailed? ==> report.undone && !report.released) ==> Agree()
      ensures report.ActionFailed? ==> restore == old(actuator.restoreMasks) && gone == p'.released * old(actuator.acted)
      ensures old(Agree()) && report.ActionFailed? && report.undone && actuator.kernel.Exact() ==>
        (Agree() <==> Kept(old(solver.placement), actuator.kernel.masks, restore, gone))
      ensures actuator.kernel.masks.Keys <= old(actuator.kernel.masks).Keys && old(actuator.kernel.calls) <= actuator.kernel.calls
      ensures Act.Outside(old(actuator.kernel.masks), actuator.kernel.masks, old(actuator.acted) + TidsIn(threads))
      ensures actuator.acted <= old(actuator.acted) + TidsIn(threads)
      ensures solver.placement.Keys <= old(solver.placement).Keys + TidsIn(threads)
    {
      hide *;
      ghost var touched := actuator.acted + TidsIn(threads);
      Act.OutsideSelf(actuator.kernel.masks, touched);
      ghost var s0, m0, c0 := solver.S(), actuator.kernel.masks, actuator.kernel.calls;
      solver.Fields();
      ReadyMeans();
      AgreeMeans();
      restore, gone := actuator.restoreMasks, {};
      var r;
      r, w := solver.Propose(threads, edges, allowed, now);
      var p := r.value;
      p' := p;
      ghost var u := solver.S();
      solver.Fields();
      DrawnParts(solver.hw, solver.thr, solver.lim, s0, u, w, p, threads, edges, allowed, now);
      AgreeMeans();
      if !p.valid {
        report := Unrestrict(p, now);
        OutsideWider(m0, actuator.kernel.masks, old(actuator.acted), touched);
      } else if !p.ready {
        solver.Discard(p);
        report := NotReady;
        solver.Fields();
        ClosedIdle(u, p, actuator.kernel.masks, now);
        ReadyMeans();
      } else if p.delta == map[] && p.released == {} && p.planned == solver.placement {
        solver.Discard(p);
        report := Stable;
        solver.Fields();
        ClosedIdle(u, p, actuator.kernel.masks, now);
        ReadyMeans();
      } else {
        IdleMeans(u, p);
        ObservedFrom(w.x, solver.placement, actuator.kernel.masks);
        CompleteFrom(w, s0.memory, solver.memory, s0.domains, s0.placement, solver.signatures, p);
        ghost var mid;
        report, gone, mid := Carry(w.x, p, TidsIn(threads), now);
        ReadyMeans();
      }
      HandledBy(solver.hw, solver.thr, solver.lim, s0, u, solver.S(), w, p, actuator.kernel.masks, threads, edges, allowed, now, report);
      AgreeMeans();
    }

    lemma ReadyMeans()
      ensures Ready() <==> solver.Valid() && actuator.Valid() && solver.outstanding.None?
    {
      hide Solver.Valid, Act.Actuator.Valid;
    }

    /** Lines 1238-1302: releases, then writes. */
    method Carry(ghost x: Input, p: Proposal, live: set<int>, now: nat)
      returns (report: Report, ghost gone: set<int>, ghost mid: nat)
      requires solver.Valid() && actuator.Valid() && solver.outstanding == Some(p) && solver.clock <= now
      requires p.ready && p.valid && !Idle(solver.S(), p) && p.planned.Keys <= live
      requires Complete(x, solver.placement, p) && Observed(x, solver.placement, actuator.kernel.masks)
      modifies this, solver, actuator, actuator.kernel
      ensures report != RestoreFailed ==> solver.Valid() && actuator.Valid() && solver.outstanding.None? && solver.clock <= now
      ensures report != Unrestricted && report != NotReady && report != Stable
      ensures Closed(old(solver.S()), solver.S(), p, actuator.kernel.masks, now, report)
      ensures report == RestoreFailed || report.ActionFailed? ==>
        Act.Heard(actuator.kernel.oracle, old(actuator.kernel.calls), actuator.kernel.calls, Act.Refused)
      ensures report.ActionFailed? ==> report.released == (p.released != {})
      ensures mid == old(actuator.kernel.calls) + |p.released * old(actuator.acted)| <= actuator.kernel.calls
      ensures report == RestoreFailed ==> Act.Heard(actuator.kernel.oracle, old(actuator.kernel.calls), mid, Act.Refused)
      ensures (report == ActionCommitted && p.delta != map[]) || (report.ActionFailed? && !report.undone) ==>
        Act.Heard(actuator.kernel.oracle, mid, actuator.kernel.calls, Act.Taken)
      ensures actuator.kernel.masks.Keys != old(actuator.kernel.masks).Keys ==>
        Act.Heard(actuator.kernel.oracle, old(actuator.kernel.calls), actuator.kernel.calls, Act.Missing)
      ensures report != RestoreFailed ==> gone == p.released * old(actuator.acted)
      ensures old(Agree()) && report != RestoreFailed && (report.ActionFailed? ==> report.undone && !report.released) ==> Agree()
      ensures old(Agree()) && report.ActionFailed? && report.undone && actuator.kernel.Exact() ==>
        (Agree() <==> Kept(old(solver.placement), actuator.kernel.masks, old(actuator.restoreMasks), gone))
      ensures solver.placement.Keys <= old(solver.placement).Keys + p.planned.Keys
      ensures actuator.kernel.masks.Keys <= old(actuator.kernel.masks).Keys && old(actuator.kernel.calls) <= actuator.kernel.calls
      ensures Act.Outside(old(actuator.kernel.masks), actuator.kernel.masks, old(actuator.acted) + live)
      ensures actuator.acted <= old(actuator.acted) + live
    {
      hide *;
      ghost var u, m0, c0, restore0 := solver.S(), actuator.kernel.masks, actuator.kernel.calls, actuator.restoreMasks;
      solver.Fields();
      AgreeMeans();
      var ok;
      ok, gone := Release(p.released);
      ghost var c1, m1, touched := actuator.kernel.calls, actuator.kernel.masks, old(actuator.acted) + live;
      mid := c1;
      OutsideWider(m0, m1, old(actuator.acted), touched);
      if !ok {
        solver.Discard(p);
        solver.Fields();
        ClosedRestore(u, p, actuator.kernel.masks, now);
        return RestoreFailed, gone, c1;
      }
      WritesWithin(x, solver.placement, p, live);
      report := Write(p, live, now, x, m0, restore0, gone);
      Act.OutsideTrans(m0, m1, actuator.kernel.masks, touched, p.delta.Keys, touched);
      Act.HeardGrows(actuator.kernel.oracle, c0, c1, actuator.kernel.calls);
      FailedReports(u, solver.S(), p, actuator.kernel.masks, now, report);
    }

    /** Lines 1181-1196: an invalid plan lifts all restrictions. */
    method Unrestrict(p: Proposal, now: nat) returns (report: Report)
      requires solver.Valid() && actuator.Valid() && solver.outstanding == Some(p) && solver.clock <= now && !p.valid
      modifies solver, actuator, actuator.kernel
      ensures report == RestoreFailed || report == Unrestricted
      ensures Closed(old(solver.S()), solver.S(), p, actuator.kernel.masks, now, report)
      ensures report == RestoreFailed ==> Act.Heard(actuator.kernel.oracle, old(actuator.kernel.calls), actuator.kernel.calls, Act.Refused)
      ensures report == Unrestricted ==> Ready() && solver.clock <= now && solver.placement == map[]
      ensures report == Unrestricted && old(Agree()) ==> Agree()
      ensures solver.placement.Keys <= old(solver.placement).Keys
      ensures actuator.kernel.masks.Keys <= old(actuator.kernel.masks).Keys && old(actuator.kernel.calls) <= actuator.kernel.calls
      ensures Act.Outside(old(actuator.kernel.masks), actuator.kernel.masks, old(actuator.acted)) && actuator.acted <= old(actuator.acted)
    {
      hide Solver.Valid, Act.Actuator.Valid, Act.Returned, Act.Kernel.Exact, AllAdopted, Landing, Consistent, Act.Heard, Landed, Closed, Act.Outside;
      ghost var u, m0, restore0, place0 := solver.S(), actuator.kernel.masks, actuator.restoreMasks, solver.placement;
      var ok, gone := Release(p.released);
      if !ok {
        solver.Discard(p);
        ClosedRestore(u, p, actuator.kernel.masks, now);
        return RestoreFailed;
      }
      if Consistent(place0, m0, strayed, actuator.kernel.Exact()) {
        ConsistentNone(place0, m0, actuator.kernel.masks, restore0, gone, strayed, actuator.kernel.Exact());
      }
      var committed := solver.Commit(p, now, {});
      LandedParts(u, solver.S(), p, now, {});
      ClosedUnrestricted(u, solver.S(), p, actuator.kernel.masks, now);
      report := Unrestricted;
    }
  }

  // ----- a release that a failed write does not undo -----

  /** A kernel that takes one call and refuses all others, changing nothing. */
  ghost predicate TakesOne(oracle: nat -> Act.Reply, first: nat) {
    oracle(first) == Act.Accept && forall n: nat :: n != first ==> oracle(n) == Act.Refuse(1, None)
  }

  lemma TakesOneMeans(kernel: Act.Kernel, first: nat, to: nat)
    requires TakesOne(kernel.oracle, first)
    ensures kernel.Exact() && !Act.Heard(kernel.oracle, first, first + 1, Act.Refused)
    ensures !Act.Heard(kernel.oracle, first + 1, to, Act.Taken) && !Act.Heard(kernel.oracle, first, to, Act.Missing)
  {
  }

  /** Thread 1 is placed on CPU 0 and would itself use CPUs 0 and 1; the window releases it and writes
  thread 2.  The kernel takes the release and refuses the write: the rollback counts as complete, the
  solver keeps its placement, and thread 1 no longer has the mask on record. */
  method ReleaseThenFailure(runtime: Runtime, ghost x: Input, p: Proposal, now: nat) returns (report: Report)
    requires runtime.solver.Valid() && runtime.actuator.Valid() && runtime.solver.outstanding == Some(p) && runtime.solver.clock <= now
    requires runtime.solver.placement == map[1 := {0}] && runtime.actuator.kernel.masks == map[1 := {0}, 2 := {0, 1}]
    requires runtime.actuator.acted == {1} && runtime.actuator.restoreMasks == map[1 := {0, 1}] && runtime.Agree()
    requires p.ready && p.valid && p.planned == map[2 := {1}] && p.delta == map[2 := {1}] && p.released == {1}
    requires Complete(x, map[1 := {0}], p) && x.allowed == map[2 := {0, 1}]
    requires TakesOne(runtime.actuator.kernel.oracle, runtime.actuator.kernel.calls)
    modifies runtime, runtime.solver, runtime.actuator, runtime.actuator.kernel
    ensures report == ActionFailed(true, true) && runtime.solver.placement == map[1 := {0}]
    ensures 1 in runtime.actuator.kernel.masks && !runtime.Agree()
  {
    hide Solver.Valid, Act.Actuator.Valid, Consistent, Act.Heard, Act.Outside, Complete, TakesOne, Act.Kernel.Exact, Runtime.Agree, Lands, Landed;
    ghost var first := runtime.actuator.kernel.calls;
    ghost var gone, mid;
    report, gone, mid := runtime.Carry(x, p, {2}, now);
    assert {1} * {1} == {1};
    TakesOneMeans(runtime.actuator.kernel, first, runtime.actuator.kernel.calls);
    assert 2 in runtime.actuator.kernel.masks.Keys && 2 in p.delta.Keys && 1 in runtime.actuator.kernel.masks.Keys;
    NotKept(runtime.actuator.kernel.masks);
  }

  lemma NotKept(masks: map<int, Mask>)
    requires 1 in masks
    ensures !Kept(map[1 := {0}], masks, map[1 := {0, 1}], {1})
  {
    var placement: map<int, Mask>, restore: map<int, Mask> := map[1 := {0}], map[1 := {0, 1}];
    assert 1 in restore[1] && 1 !in placement[1];
    assert 1 in placement && restore[1] != placement[1];
  }

  lemma LandedParts(u: State, t: State, p: Proposal, now: nat, committed: set<int>)
    requires Landed(u, t, p, now, committed)
    ensures t.outstanding.None? && t.clock == now && t.placement == Landing(u.placement, p, committed)
  {
    hide Landing, AllAdopted, AdoptLog, IdsOf;
  }

  lemma ClosedUnrestricted(u: State, t: State, p: Proposal, masks: map<int, Mask>, now: nat)
    requires !p.valid && Landed(u, t, p, now, {})
    ensures Closed(u, t, p, masks, now, Unrestricted)
  {
    hide Landed;
  }

  lemma ClosedRestore(u: State, p: Proposal, masks: map<int, Mask>, now: nat)
    requires !p.valid || (p.ready && !Idle(u, p))
    ensures Closed(u, u.(outstanding := None), p, masks, now, RestoreFailed)
  {
    hide Idle;
  }

  lemma ClosedFailed(u: State, p: Proposal, masks: map<int, Mask>, now: nat, undone: bool)
    requires p.ready && !Idle(u, p)
    ensures Closed(u, u.(outstanding := None), p, masks, now, ActionFailed(undone, p.released != {}))
  {
    hide Idle;
  }

  lemma ClosedVanished(u: State, t: State, p: Proposal, masks: map<int, Mask>, now: nat)
    requires p.ready && p.delta != map[] && p.delta.Keys !! masks.Keys
    requires t == u.(outstanding := None, placement := u.placement - p.delta.Keys - p.released)
    ensures Closed(u, t, p, masks, now, ActionsVanished)
  {
  }

  lemma ClosedCommitted(u: State, t: State, p: Proposal, masks: map<int, Mask>, now: nat, committed: set<int>, vanished: set<int>)
    requires committed + vanished == p.delta.Keys && committed !! vanished && vanished !! masks.Keys
    requires p.ready && !Idle(u, p) && (p.delta != map[] ==> committed != {})
    requires Landed(u.(placement := u.placement - vanished), t, p, now, committed)
    ensures Closed(u, t, p, masks, now, ActionCommitted)
  {
    hide Landed, Idle;
    assert Lands(u, t, p, masks, now, committed, vanished);
  }

  lemma ClosedIdle(u: State, p: Proposal, masks: map<int, Mask>, now: nat)
    ensures p.valid && !p.ready ==> Closed(u, u.(outstanding := None), p, masks, now, NotReady)
    ensures p.ready && p.delta == map[] && p.released == {} && p.planned == u.placement ==>
      Closed(u, u.(outstanding := None), p, masks, now, Stable)
  {
  }

  lemma ObservedFrom(x: Input, placement: map<int, Mask>, masks: map<int, Mask>)
    requires forall t :: t in x.allowed && t in masks && t !in placement ==> x.allowed[t] == masks[t]
    ensures Observed(x, placement, masks)
  {
  }

  lemma IdleMeans(u: State, p: Proposal)
    ensures Idle(u, p) <==> p.delta == map[] && p.released == {} && p.planned == u.placement
  {
  }

  lemma FailedReports(u: State, t: State, p: Proposal, masks: map<int, Mask>, now: nat, report: Report)
    requires Closed(u, t, p, masks, now, report)
    ensures report.ActionFailed? ==> report.released == (p.released != {})
  {
    hide Landed, Lands, Idle;
  }

  lemma HandledBy(hw: Machine, thr: Thresholds, lim: Limits, s: State, u: State, t: State, w: DomainSolver.Window, p: Proposal, masks: map<int, Mask>,
                  threads: seq<Thread>, edges: seq<Edge>, allowed: map<int, Mask>, now: nat, report: Report)
    requires Drawn(hw, thr, lim, s, u, w, p, threads, edges, allowed, now) && Closed(u, t, p, masks, now, report)
    ensures Handled(hw, thr, lim, s, t, w, p, masks, threads, edges, allowed, now, report)
  {
    hide Drawn, Closed;
  }

  lemma DrawnParts(hw: Machine, thr: Thresholds, lim: Limits, s: State, u: State, w: DomainSolver.Window, p: Proposal,
                   threads: seq<Thread>, edges: seq<Edge>, allowed: map<int, Mask>, now: nat)
    requires Drawn(hw, thr, lim, s, u, w, p, threads, edges, allowed, now)
    ensures u.outstanding == Some(p) && u.clock == now && u.placement == s.placement && u.domains == s.domains
    ensures Proposes(w, s.memory, u.memory, s.domains, s.placement, u.signatures, p) && w.x.allowed == allowed
    ensures p.planned.Keys <= TidsIn(threads)
  {
    hide Proposes, SignatureOf, NewEvents, GroupedBy, TidsIn, Convinces, Logged;
  }

  lemma WritesWithin(x: Input, placement: map<int, Mask>, p: Proposal, live: set<int>)
    requires Complete(x, placement, p) && p.planned.Keys <= live
    ensures p.delta.Keys <= live
  {
  }

  lemma OutsideWider(m0: map<int, Mask>, m: map<int, Mask>, few: set<int>, many: set<int>)
    requires Act.Outside(m0, m, few) && few <= many
    ensures Act.Outside(m0, m, many)
  {
  }

  /** What a ready proposal asks for is never empty. */
  lemma AskedFor(x: Input, placement: map<int, Mask>, p: Proposal, t: int)
    requires Complete(x, placement, p) && t in p.delta
    ensures p.delta[t] != {}
  {
  }

  lemma VanishedGone(x: Input, placement: map<int, Mask>, p: Proposal, live: set<int>, masks: map<int, Mask>, committed: set<int>, vanished: set<int>)
    requires Complete(x, placement, p) && p.planned.Keys <= live && committed + vanished == p.delta.Keys
    requires forall t :: t in vanished ==> t !in live || t !in masks
    ensures vanished !! masks.Keys
  {
    forall t | t in vanished
      ensures t !in masks.Keys
    {
      assert t in p.delta.Keys;
      assert t in p.planned.Keys;
    }
  }

  /** The threads that a refused write may have left with another mask. */
  function Strays(strayed: set<int>, refused: int, left: Option<Mask>): set<int> {
    if left.Some? then strayed + {refused} else strayed
  }

  lemma LandingKeys(placement: map<int, Mask>, p: Proposal, committed: set<int>)
    ensures Landing(placement, p, committed).Keys <= placement.Keys + p.planned.Keys
  {
  }

  lemma ConsistentNone(placement: map<int, Mask>, m0: map<int, Mask>, m: map<int, Mask>,
                       restore: map<int, Mask>, gone: set<int>, strayed: set<int>, exact: bool)
    requires Consistent(placement, m0, strayed, exact) && Act.Returned(m0, m, restore, gone, {})
    ensures Consistent(map[], m, strayed, exact)
  {
  }

  /** The released threads that are alive had their recorded mask as their own. */
  ghost predicate Kept(placement: map<int, Mask>, masks: map<int, Mask>, restore: map<int, Mask>, gone: set<int>) {
    forall t :: t in gone && t in placement && t in masks ==> t in restore && restore[t] == placement[t]
  }

  lemma VanishedAll(placement: map<int, Mask>, delta: map<int, Mask>, released: set<int>, vanished: set<int>)
    requires {} + vanished == delta.Keys
    ensures placement - vanished - released == placement - delta.Keys - released && vanished == delta.Keys
  {
    assert vanished == delta.Keys;
  }

  lemma ConsistentFailure(placement: map<int, Mask>, m0: map<int, Mask>, m1: map<int, Mask>, m2: map<int, Mask>,
                          restore: map<int, Mask>, gone: set<int>, strayed: set<int>, exact: bool, refused: int, left: Option<Mask>)
    requires Consistent(placement, m0, strayed, exact) && Act.Returned(m0, m1, restore, gone, {})
    requires Act.AsBefore(m1, m2, refused, left) && (exact ==> left.None?)
    ensures gone == {} ==> Consistent(placement, m2, Strays(strayed, refused, left), exact)
    ensures exact ==> (Consistent(placement, m2, Strays(strayed, refused, left), exact) <==> Kept(placement, m2, restore, gone))
  {
    if exact {
      AgreesAfterFailure(placement, m0, m1, m2, restore, gone, refused, left);
    }
  }

  lemma ConsistentCommit(x: Input, placement: map<int, Mask>, p: Proposal, m0: map<int, Mask>, m1: map<int, Mask>, m2: map<int, Mask>,
                         restore: map<int, Mask>, gone: set<int>, committed: set<int>, vanished: set<int>, strayed: set<int>, exact: bool)
    requires Consistent(placement, m0, strayed, exact) && Act.Returned(m0, m1, restore, gone, {})
    requires Complete(x, placement, p) && Observed(x, placement, m0) && gone <= p.released
    requires Act.Written(m1, m2, p.delta, committed) && committed + vanished == p.delta.Keys && committed !! vanished
    ensures p.delta == map[] || committed != {} ==> Consistent(Landing(placement - vanished, p, committed), m2, strayed - committed, exact)
    ensures committed == {} ==> Consistent(placement - vanished - p.released, m2, strayed - committed, exact)
  {
    hide Landing, Inherits;
    AgreesReleased(placement, m0, m1, restore, gone, p.released, strayed);
    assert exact ==> strayed - committed == {};
    assert Observed(x, placement, m1) by {
      hide Act.Written;
    }
    if p.delta == map[] || committed != {} {
      AgreesLanding(x, placement, p, m1, m2, committed, vanished, strayed);
    }
  }

  // ----- whole runs -----

  /** What happens: threads come and go, or a window is solved with the masks of some threads. */
  datatype Step =
    | Elapses(ended: set<int>, started: map<int, Mask>)
    | Solves(threads: seq<Thread>, edges: seq<Edge>, sampled: set<int>)

  predicate Sensible(s: Step) {
    s.Solves? ==> UniqueTids(s.threads)
  }

  function Sample(masks: map<int, Mask>, sampled: set<int>): map<int, Mask> {
    map t | t in masks && t in sampled :: masks[t]
  }

  lemma ConsistentElapsed(placement: map<int, Mask>, m0: map<int, Mask>, strayed: set<int>,
                          exact: bool, ended: set<int>, started: map<int, Mask>, seen: set<int>)
    requires Consistent(placement, m0, strayed, exact) && placement.Keys <= seen
    ensures Consistent(placement, m0 - ended + Act.Fresh(started, seen), strayed, exact)
  {
    var m := m0 - ended + Act.Fresh(started, seen);
    forall t | t in placement && t in m
      ensures t in strayed || m[t] == placement[t]
    {
      assert t in placement.Keys;
      assert t !in Act.Fresh(started, seen);
    }
  }

  /** Solver and masks at one time. */
  datatype World = World(state: State, masks: map<int, Mask>, acted: set<int>)

  /** The thread ids that were ever seen before the k-th step. */
  function SeenIds(first: set<int>, script: seq<Step>, k: nat): set<int>
    requires k <= |script|
  {
    if k == 0 then first
    else SeenIds(first, script, k - 1) + (match script[k - 1]
      case Elapses(_, started) => started.Keys
      case Solves(threads, _, _) => TidsIn(threads))
  }

  /** What one step makes of the world. */
  ghost predicate Happens(hw: Machine, thr: Thresholds, lim: Limits, w: World, e: Step, seen: set<int>, now: nat, v: World, report: Report) {
    match e
    case Elapses(ended, started) => v == w.(masks := w.masks - ended + Act.Fresh(started, seen))
    case Solves(threads, edges, sampled) =>
      && (exists x, p :: Handled(hw, thr, lim, w.state, v.state, x, p, v.masks, threads, edges, Sample(w.masks, sampled), now, report))
      && Act.Outside(w.masks, v.masks, w.acted + TidsIn(threads)) && v.acted <= w.acted + TidsIn(threads)
  }

  /** Every live thread in the placement has exactly its mask. */
  ghost predicate InStep(w: World) {
    forall t :: t in w.state.placement && t in w.masks ==> w.masks[t] == w.state.placement[t]
  }

  /** The worlds of a run. */
  ghost predicate History(hw: Machine, thr: Thresholds, lim: Limits, first: set<int>, script: seq<Step>, clock: seq<nat>,
                          worlds: seq<World>, reports: seq<Report>, n: nat) {
    && n <= |script| == |clock| && |worlds| == n + 1 && |reports| == n
    && (forall i :: 0 <= i <= n ==> Sane(hw, lim, worlds[i].state))
    && (forall i :: 0 <= i < n ==> Happens(hw, thr, lim, worlds[i], script[i], SeenIds(first, script, i), clock[i], worlds[i + 1], reports[i]))
  }

  lemma HistoryMore(hw: Machine, thr: Thresholds, lim: Limits, first: set<int>, script: seq<Step>, clock: seq<nat>,
                    worlds: seq<World>, reports: seq<Report>, n: nat, w: World, report: Report)
    requires History(hw, thr, lim, first, script, clock, worlds, reports, n) && n < |script|
    requires Happens(hw, thr, lim, worlds[n], script[n], SeenIds(first, script, n), clock[n], w, report) && Sane(hw, lim, w.state)
    ensures History(hw, thr, lim, first, script, clock, worlds + [w], reports + [report], n + 1)
  {
    hide Happens, SeenIds, Sane;
    var more, said := worlds + [w], reports + [report];
    assert forall i :: 0 <= i <= n + 1 ==> more[i] == if i <= n then worlds[i] else w;
    forall i | 0 <= i < n + 1
      ensures Happens(hw, thr, lim, more[i], script[i], SeenIds(first, script, i), clock[i], more[i + 1], said[i])
    {
      if i < n {
        assert Happens(hw, thr, lim, worlds[i], script[i], SeenIds(first, script, i), clock[i], worlds[i + 1], reports[i]);
      }
    }
  }

  lemma HistoryStarts(hw: Machine, thr: Thresholds, lim: Limits, first: set<int>, script: seq<Step>, clock: seq<nat>, w: World)
    requires |script| == |clock| && Sane(hw, lim, w.state)
    ensures History(hw, thr, lim, first, script, clock, [w], [], 0)
  {
    hide Sane;
  }

  lemma SeenNext(first: set<int>, script: seq<Step>, k: nat)
    requires k < |script|
    ensures SeenIds(first, script, k) <= SeenIds(first, script, k + 1)
    ensures script[k].Solves? ==> TidsIn(script[k].threads) <= SeenIds(first, script, k + 1)
  {
    hide TidsIn;
  }

  lemma SeenStarts(first: set<int>, script: seq<Step>)
    ensures SeenIds(first, script, 0) == first
  {
  }

  lemma ConsistentMeans(w: World, strayed: set<int>, exact: bool)
    requires Consistent(w.state.placement, w.masks, strayed, exact)
    ensures exact ==> InStep(w)
  {
  }

  /** A report after which a run is not followed further. */
  predicate Breaks(report: Report) {
    report == RestoreFailed || (report.ActionFailed? && (!report.undone || report.released))
  }

  /** One step of a run. */
  method TakeStep(runtime: Runtime, e: Step, seen: set<int>, now: nat) returns (report: Report)
    requires runtime.Ready() && runtime.Agree() && Sensible(e) && runtime.solver.clock <= now && runtime.solver.placement.Keys <= seen
    modifies runtime, runtime.solver, runtime.actuator, runtime.actuator.kernel
    ensures Happens(runtime.solver.hw, runtime.solver.thr, runtime.solver.lim, old(runtime.Look()), e, seen, now, runtime.Look(), report)
    ensures old(runtime.actuator.kernel.calls) <= runtime.actuator.kernel.calls
    ensures
      if Breaks(report)
      then Act.Heard(runtime.actuator.kernel.oracle, old(runtime.actuator.kernel.calls), runtime.actuator.kernel.calls, Act.Refused)
      else runtime.Ready() && runtime.Agree() && runtime.solver.clock <= now
    ensures runtime.solver.placement.Keys <= seen + (if e.Solves? then TidsIn(e.threads) else {})
  {
    hide Solver.Valid, Act.Actuator.Valid, Consistent, Act.Kernel.Exact, UniqueTids, Act.Fresh, TidsIn, Kept, Handled, Act.Heard, Act.Outside;
    match e
    case Elapses(ended, started) =>
      ghost var m0 := runtime.actuator.kernel.masks;
      ConsistentElapsed(runtime.solver.placement, m0, runtime.strayed, runtime.actuator.kernel.Exact(), ended, started, seen);
      runtime.actuator.kernel.Elapse(ended, Act.Fresh(started, seen));
      report := NotReady;
    case Solves(threads, edges, sampled) =>
      ghost var x, p, gone, restore;
      report, x, p, gone, restore := runtime.Window(threads, edges, Sample(runtime.actuator.kernel.masks, sampled), now);
  }

  /** Over every run without reused thread ids and without mask changes from outside, each live
  thread in the placement has exactly its mask, after every step.  A run ends early only after a
  restore or a rollback failed, or a window both released threads and failed to write; and then the
  kernel has refused a call. */
  method AnyRun(solver: Solver, kernel: Act.Kernel, script: seq<Step>, clock: seq<nat>)
    returns (runtime: Runtime, done: nat, broken: bool, ghost worlds: seq<World>, ghost reports: seq<Report>)
    requires solver.Valid() && solver.outstanding.None? && solver.placement == map[] && solver.clock == 0
    requires |clock| == |script| && forall i :: 0 <= i < |script| ==> Sensible(script[i])
    requires forall i, j :: 0 <= i < j < |clock| ==> clock[i] <= clock[j]
    modifies solver, kernel
    ensures fresh(runtime) && runtime.solver == solver && runtime.actuator.kernel == kernel && done <= |script| && (broken || done == |script|)
    ensures History(solver.hw, solver.thr, solver.lim, old(kernel.masks.Keys), script, clock, worlds, reports, done)
    ensures worlds[0] == World(old(solver.S()), old(kernel.masks), {})
    ensures !broken ==> runtime.Ready() && runtime.Agree() && worlds[done] == runtime.Look()
    ensures kernel.Exact() ==> forall i :: 0 <= i <= done ==> InStep(worlds[i])
    ensures broken ==> Act.Heard(kernel.oracle, old(kernel.calls), kernel.calls, Act.Refused)
    ensures (forall n: nat :: !kernel.oracle(n).Refuse?) ==> !broken
  {
    hide Solver.Valid, Act.Actuator.Valid, Consistent, Act.Kernel.Exact, Sensible, SeenIds, History, Act.Heard, InStep, Happens, TidsIn, Sane;
    var actuator := new Act.Actuator(kernel);
    runtime := new Runtime(solver, actuator);
    ghost var from := kernel.calls;
    var first, seen := kernel.masks.Keys, kernel.masks.Keys;
    done, broken := 0, false;
    worlds, reports := [runtime.Look()], [];
    solver.ValidSane();
    HistoryStarts(solver.hw, solver.thr, solver.lim, first, script, clock, runtime.Look());
    SeenStarts(first, script);
    ConsistentMeans(runtime.Look(), runtime.strayed, kernel.Exact());
    while done < |script|
      invariant done <= |script| && fresh(runtime) && fresh(actuator) && !broken
      invariant runtime.solver == solver && runtime.actuator == actuator && actuator.kernel == kernel && from <= kernel.calls
      invariant runtime.Ready() && runtime.Agree() && seen == SeenIds(first, script, done) && solver.placement.Keys <= seen
      invariant |worlds| == done + 1 && worlds[done] == runtime.Look() && worlds[0] == World(old(solver.S()), old(kernel.masks), {})
      invariant History(solver.hw, solver.thr, solver.lim, first, script, clock, worlds, reports, done)
      invariant kernel.Exact() ==> forall i :: 0 <= i <= done ==> InStep(worlds[i])
      invariant done > 0 ==> solver.clock <= clock[done - 1]
      invariant done == 0 ==> solver.clock == 0
    {
      ghost var c1 := kernel.calls;
      var report := TakeStep(runtime, script[done], seen, clock[done]);
      Act.HeardGrows(kernel.oracle, from, c1, kernel.calls);
      if Breaks(report) {
        Act.RefusalHeard(kernel.oracle, from, kernel.calls);
        return runtime, done, true, worlds, reports;
      }
      solver.ValidSane();
      HistoryMore(solver.hw, solver.thr, solver.lim, first, script, clock, worlds, reports, done, runtime.Look(), report);
      worlds, reports := worlds + [runtime.Look()], reports + [report];
      ConsistentMeans(runtime.Look(), runtime.strayed, kernel.Exact());
      SeenNext(first, script, done);
      seen := SeenIds(first, script, done + 1);
      done := done + 1;
    }
  }
}
