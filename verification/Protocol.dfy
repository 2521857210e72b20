/** What the runtime does with the solver around a proposal (src/runtime.cpp:1487-1492 and
1616-1643): threads that are gone or cool are removed, the rest of a batch is committed. */
module Protocol {
  import opened Lists
  import opened Topology
  import opened Pinning
  import opened Optimizer
  import opened SolverState
  import opened IncrementalSolver

  /** Several threads removed, in thread order. */
  function RemovedAll(s: State, tids: set<int>): State
    decreases |tids|
  {
    if tids == {} then s else RemovedAll(Removed(s, Least(tids)), tids - {Least(tids)})
  }

  /** The vanished threads are removed; the committed ones, if any, are committed. */
  function Concluded(s: State, p: Proposal, committed: set<int>, vanished: set<int>, now: nat): State {
    var u := RemovedAll(s, vanished);
    if committed == {} then Discarded(u, p) else Committed(u, p, now, committed)
  }

  /** The cooling threads are removed; a solver whose cohort has become empty starts over. */
  function Cooled(s: State, cooling: set<int>, next: set<int>): State {
    if next == {} && cooling != {} then Initial() else RemovedAll(s, cooling)
  }

  lemma {:induction false} RemovedAllFrame(s: State, tids: set<int>)
    ensures var r := RemovedAll(s, tids);
      && r.outstanding == s.outstanding && r.history.clock == s.history.clock && r.history.evals == s.history.evals
      && r.confirmations == s.confirmations && r.phase == s.phase
      && r.book.threads == s.book.threads - tids && r.place.placement == s.place.placement - tids
    decreases |tids|
  {
    if tids != {} {
      var t := Least(tids);
      RemovedAllFrame(Removed(s, t), tids - {t});
      assert s.book.threads - {t} - (tids - {t}) == s.book.threads - tids;
      assert s.place.placement - {t} - (tids - {t}) == s.place.placement - tids;
    }
  }

  lemma {:induction false} RemovedAllInv(hw: Machine, opt: Options, s: State, tids: set<int>)
    requires Inv(hw, opt, s)
    ensures Inv(hw, opt, RemovedAll(s, tids))
    decreases |tids|
  {
    hide Inv, Core, PhaseOk, Removed;
    if tids != {} {
      InvParts(hw, opt, s);
      RemovedInv(hw, opt, s, Least(tids));
      InvParts(hw, opt, Removed(s, Least(tids)));
      RemovedAllInv(hw, opt, Removed(s, Least(tids)), tids - {Least(tids)});
    }
  }

  method RemoveAll(solver: Solver, tids: set<int>)
    modifies solver
    ensures solver.S() == RemovedAll(old(solver.S()), tids)
    ensures old(solver.Valid()) ==> solver.Valid()
  {
    hide Inv, Removed, Solver.S;
    var todo := tids;
    while todo != {}
      invariant RemovedAll(solver.S(), todo) == RemovedAll(old(solver.S()), tids)
      invariant old(solver.Valid()) ==> solver.Valid()
      decreases todo
    {
      Inhabited(todo);
      var t := Least(todo);
      solver.RemoveThread(t);
      todo := todo - {t};
    }
  }

  /** Exactly the threads of the batch that are still managed were written. */
  ghost predicate Settles(actions: seq<Action>, tids: set<int>, committed: set<int>) {
    && (forall i, j :: 0 <= i < j < |actions| ==> actions[i].id.tid != actions[j].id.tid)
    && (forall a :: a in actions ==> (a.id.tid in tids <==> a.id.tid in committed))
  }

  lemma BatchUnique(hw: Machine, opt: Options, s: State, p: Proposal)
    requires Inv(hw, opt, s) && s.outstanding == Some(p)
    ensures forall i, j :: 0 <= i < j < |p.actions| ==> p.actions[i].id.tid != p.actions[j].id.tid
  {
    hide Records, Placed, Plans, Moves, Streaks, Slots, NodeMap, Targets.For, PhaseOk, Outcome;
  }

  lemma SettlesFrom(actions: seq<Action>, tids0: set<int>, tids: set<int>, committed: set<int>, vanished: set<int>)
    requires forall i, j :: 0 <= i < j < |actions| ==> actions[i].id.tid != actions[j].id.tid
    requires tids == tids0 - vanished && committed <= tids0
    requires committed + vanished == TidsOf(actions) && committed !! vanished
    ensures Settles(actions, tids, committed)
  {
    forall a | a in actions
      ensures a.id.tid in tids <==> a.id.tid in committed
    {
      assert a.id.tid in committed + vanished;
    }
  }

  lemma FollowsFrom(s: State, p: Proposal, committed: set<int>)
    requires Settles(p.actions, s.book.threads.Keys, committed) && s.outstanding == Some(p) && committed != {}
    ensures Follows(s, p, committed)
  {
  }

  /** Once the vanished threads are removed, a batch is committed as the solver expects. */
  lemma ConcludedInv(hw: Machine, opt: Options, s: State, p: Proposal, committed: set<int>, vanished: set<int>, now: nat)
    requires Inv(hw, opt, s) && s.outstanding == Some(p) && s.history.clock <= now
    requires committed + vanished == TidsOf(p.actions) && committed !! vanished && committed <= s.book.threads.Keys
    ensures var u := RemovedAll(s, vanished); var t := Concluded(s, p, committed, vanished, now);
      && Inv(hw, opt, t) && t.outstanding.None? && t.history.clock <= now
      && Settles(p.actions, u.book.threads.Keys, committed) && (committed != {} ==> Follows(u, p, committed))
      && t.place.placement == (if committed == {} then u.place.placement else Outcome(u, p.actions))
      && t.book.threads == s.book.threads - vanished
  {
    hide Inv, RemovedAll, Committed, Follows, Settles, TidsOf, Outcome;
    var u := RemovedAll(s, vanished);
    RemovedAllFrame(s, vanished);
    RemovedAllInv(hw, opt, s, vanished);
    BatchUnique(hw, opt, s, p);
    assert u.book.threads.Keys == s.book.threads.Keys - vanished;
    SettlesFrom(p.actions, s.book.threads.Keys, u.book.threads.Keys, committed, vanished);
    if committed == {} {
      DiscardedInv(hw, opt, u, p);
    } else {
      FollowsFrom(u, p, committed);
      CommittedInv(hw, opt, u, p, now, committed);
      CommittedClock(u, p, now, committed);
    }
  }

  /** Lines 1638-1643. */
  method Conclude(solver: Solver, p: Proposal, committed: set<int>, vanished: set<int>, now: nat)
    requires solver.Valid() && solver.outstanding == Some(p) && solver.history.clock <= now
    requires committed + vanished == TidsOf(p.actions) && committed !! vanished && committed <= solver.book.threads.Keys
    modifies solver
    ensures solver.S() == Concluded(old(solver.S()), p, committed, vanished, now) && solver.Valid()
    ensures solver.outstanding.None? && solver.history.clock <= now
  {
    hide Inv, RemovedAll, Committed, Follows, Settles, TidsOf, Outcome;
    ghost var s := solver.S();
    ConcludedInv(solver.hw, solver.opt, s, p, committed, vanished, now);
    RemoveAll(solver, vanished);
    if committed == {} {
      solver.Discard(p);
    } else {
      solver.Commit(p, now, committed);
    }
    assert solver.outstanding == solver.S().outstanding && solver.history == solver.S().history;
  }

  lemma CooledInv(hw: Machine, opt: Options, s: State, cooling: set<int>, next: set<int>)
    requires Inv(hw, opt, s) && s.outstanding.None? && s.book.threads.Keys <= cooling + next
    ensures var t := Cooled(s, cooling, next);
      && Inv(hw, opt, t) && t.outstanding.None? && t.book.threads.Keys <= next && t.history.clock <= s.history.clock
      && t.place.placement == s.place.placement - cooling
  {
    RemovedAllFrame(s, cooling);
    RemovedAllInv(hw, opt, s, cooling);
    InitialInv(hw, opt);
    InvPlaced(hw, opt, s);
    hide Inv, RemovedAll;
    if next == {} {
      forall t | t in s.place.placement
        ensures t in cooling
      {
        assert t in s.place.placement.Keys;
      }
      assert s.place.placement - cooling == map[];
    }
  }

  lemma InvPlaced(hw: Machine, opt: Options, s: State)
    requires Inv(hw, opt, s)
    ensures s.place.placement.Keys <= s.book.threads.Keys
  {
    hide Plans, Moves, Streaks, Slots, Pending, NodeMap, Targets.For, PhaseOk, Records;
  }

  /** Lines 1487-1492 for the solver: it forgets the cooling threads, and everything once nobody is left. */
  method Dismiss(solver: Solver, cooling: set<int>, next: set<int>)
    requires solver.Valid() && solver.outstanding.None? && solver.book.threads.Keys <= cooling + next
    modifies solver
    ensures solver.S() == Cooled(old(solver.S()), cooling, next) && solver.Valid()
    ensures solver.outstanding.None? && solver.book.threads.Keys <= next && solver.history.clock <= old(solver.history.clock)
  {
    hide Inv, RemovedAll;
    CooledInv(solver.hw, solver.opt, solver.S(), cooling, next);
    RemoveAll(solver, cooling);
    if next == {} && cooling != {} {
      solver.Reset();
    }
    assert solver.outstanding == solver.S().outstanding && solver.history == solver.S().history && solver.book == solver.S().book;
  }
}
