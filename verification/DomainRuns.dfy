/** What the expansion and shrink streaks of the domain solver mean over a whole run: every
evaluation in the history was made by a window of the run, on the state of that time. */
module DomainRuns {
  import opened Lists
  import opened Topology
  import opened Threads
  import opened NodeChoice
  import opened Evidence
  import opened Domains
  import opened DomainPlan
  import opened Holding
  import opened DomainProposal
  import opened DomainWindow
  import opened DomainSolver
  import opened DomainRuntime

  /** The evaluation was made by a window that started in that state. */
  ghost predicate MadeBy(hw: Machine, thr: Thresholds, lim: Limits, s: State, masks: map<int, Mask>, step: Step, now: nat, e: Event) {
    step.Solves? && exists u, w, p, k: nat, required ::
      && Drawn(hw, thr, lim, s, u, w, p, step.threads, step.edges, Sample(masks, step.sampled), now)
      && k < |w.t.cands| == |w.t.es| && w.t.es[k] == [e]
      && Assessed(w.x, s.memory, PlacedOf(w.t.cands[..k]), w.t.cands[k], [e], required)
  }

  lemma {:induction false} GatheredFrom(es: seq<seq<Event>>, e: Event)
    requires e in Gathered(es)
    ensures exists k :: 0 <= k < |es| && e in es[k]
  {
    var n := |es| - 1;
    if e in Gathered(es[..n]) {
      GatheredFrom(es[..n], e);
      var k :| 0 <= k < n && e in es[..n][k];
      assert e in es[k];
    }
  }

  lemma {:induction false} CoversMean(committed: seq<Domain>, cands: seq<Domain>, now: nat, e: Event)
    requires e in CoverEvents(committed, cands, now)
    ensures e.Covered? && e.time == now
    ensures exists j :: 0 <= j < |committed| && committed[j].families == e.id && Confirmed(cands, committed[j])
  {
    hide Confirmed;
    var n := |committed| - 1;
    if e in CoverEvents(committed[..n], cands, now) {
      CoversMean(committed[..n], cands, now, e);
      var j :| 0 <= j < n && committed[..n][j].families == e.id && Confirmed(cands, committed[..n][j]);
      assert committed[..n][j] == committed[j];
    }
  }

  lemma {:induction false} CoversLogged(committed: seq<Domain>, cands: seq<Domain>, now: nat, j: nat)
    requires j < |committed| && Confirmed(cands, committed[j])
    ensures Covered(committed[j].families, now) in CoverEvents(committed, cands, now)
  {
    hide Confirmed;
    var n := |committed| - 1;
    if j < n {
      CoversLogged(committed[..n], cands, now, j);
    }
  }

  lemma {:induction false} AdoptsMean(m: Memory, active: set<Id>, list: seq<Domain>, now: nat, e: Event)
    requires e in AdoptLog(m, active, list, now)
    ensures e.Changed? || (e.Entered? && e.time == now && e.id !in active && e.id in IdsOf(list))
  {
    var n := |list| - 1;
    if e in AdoptLog(m, active, list[..n], now) {
      AdoptsMean(m, active, list[..n], now, e);
      IdsPrefix(list, n);
    }
  }

  lemma IdsPrefix(list: seq<Domain>, n: nat)
    requires n <= |list|
    ensures IdsOf(list[..n]) <= IdsOf(list)
  {
    forall id | id in IdsOf(list[..n])
      ensures id in IdsOf(list)
    {
      var d :| d in list[..n] && d.families == id;
      assert d in list;
    }
  }

  lemma {:induction false} AdoptsLogged(m: Memory, active: set<Id>, list: seq<Domain>, now: nat, k: nat)
    requires k < |list| && list[k].families !in active
    ensures Entered(list[k].families, now) in AdoptLog(m, active, list, now)
  {
    hide AdoptEvents;
    var n := |list| - 1;
    var before := list[..n];
    if k < n {
      assert before[k] == list[k];
      AdoptsLogged(m, active, before, now, k);
    } else {
      EntryEvent(m, active, list[n], now);
    }
  }

  lemma EntryEvent(m: Memory, active: set<Id>, d: Domain, now: nat)
    requires d.families !in active
    ensures Entered(d.families, now) in AdoptEvents(m, active, d, now)
  {
    assert [Entered(d.families, now)][0] == Entered(d.families, now);
  }

  /** One evaluation of a window, and what it says. */
  lemma CandidateEvent(x: Input, m: Memory, m': Memory, groups: seq<Id>, cands: seq<Domain>, es: seq<seq<Event>>, e: Event)
    returns (k: nat, required: seq<int>)
    requires Candidates(x, m, m', groups, cands, es) && e in Gathered(es)
    ensures k < |cands| == |es| && es[k] == [e] && Assessed(x, m, PlacedOf(cands[..k]), cands[k], [e], required)
  {
    hide Candidate, PlacedOf, Gathered, Assessed;
    GatheredFrom(es, e);
    k :| 0 <= k < |es| && e in es[k];
    assert Candidate(x, m, PlacedOf(cands[..k]), cands[k], es[k]);
    required := AssessedOne(x, m, PlacedOf(cands[..k]), cands[k], es[k], e);
  }

  lemma AssessedOne(x: Input, m: Memory, placed: seq<(seq<Family>, seq<int>)>, d: Domain, es: seq<Event>, e: Event) returns (required: seq<int>)
    requires Candidate(x, m, placed, d, es) && e in es
    ensures es == [e] && Assessed(x, m, placed, d, [e], required)
  {
    hide Ask, TidsOf, MaskFor, Fits, Nodes, Starves, WantsMore, WantsFewer, Required;
    required :| Assessed(x, m, placed, d, es, required);
    assert es == [e];
  }

  lemma DrawnEvent(hw: Machine, thr: Thresholds, lim: Limits, s: State, u: State, w: DomainSolver.Window, p: Proposal,
                   step: Step, masks: map<int, Mask>, now: nat, e: Event)
    requires step.Solves? && Drawn(hw, thr, lim, s, u, w, p, step.threads, step.edges, Sample(masks, step.sampled), now)
    requires e.Evaluated? && e in NewEvents(w.t, s.domains, now)
    ensures MadeBy(hw, thr, lim, s, masks, step, now, e)
  {
    if e in CoverEvents(s.domains, w.t.cands, now) {
      CoversMean(s.domains, w.t.cands, now, e);
    }
    DrawnCandidates(hw, thr, lim, s, u, w, p, step.threads, step.edges, Sample(masks, step.sampled), now);
    hide Drawn, Candidates, Gathered, Assessed, PlacedOf, Sample, CoverEvents;
    var k, required := CandidateEvent(w.x, s.memory, w.t.counted, w.groups, w.t.cands, w.t.es, e);
  }

  lemma DrawnCandidates(hw: Machine, thr: Thresholds, lim: Limits, s: State, u: State, w: DomainSolver.Window, p: Proposal,
                        threads: seq<Thread>, edges: seq<Edge>, allowed: map<int, Mask>, now: nat)
    requires Drawn(hw, thr, lim, s, u, w, p, threads, edges, allowed, now)
    ensures Candidates(w.x, s.memory, w.t.counted, w.groups, w.t.cands, w.t.es)
    ensures u.events == s.events + NewEvents(w.t, s.domains, now)
  {
    hide SignatureOf, NewEvents, GroupedBy, TidsIn, Convinces, Logged, Candidates, Renewed, Holds, HoldAll, Filled, AllSound, AllSmall;
    hide GroupsApart, GroupsPeopled, InheritedOf, Writes, SameRun;
  }

  /** After the window itself, only changes and entries are added. */
  lemma ClosedEvents(u: State, t: State, p: Proposal, masks: map<int, Mask>, now: nat, report: Report)
    requires Closed(u, t, p, masks, now, report)
    ensures u.events <= t.events && forall j :: |u.events| <= j < |t.events| ==> !t.events[j].Evaluated?
  {
    hide Landing, AllAdopted, Idle, AdoptLog;
    if report == ActionCommitted {
      var committed, vanished :| Lands(u, t, p, masks, now, committed, vanished);
    }
    if report == ActionCommitted || report == Unrestricted {
      var more := AdoptLog(u.memory, IdsOf(u.domains), p.domains, now);
      assert t.events == u.events + more;
      forall j | |u.events| <= j < |t.events|
        ensures !t.events[j].Evaluated?
      {
        assert t.events[j] == more[j - |u.events|];
        AdoptsMean(u.memory, IdsOf(u.domains), p.domains, now, t.events[j]);
      }
    } else {
      assert t.events == u.events;
    }
  }

  /** One step: an evaluation that was not in the history before was made by its window. */
  lemma StepEvent(hw: Machine, thr: Thresholds, lim: Limits, v: World, step: Step, seen: set<int>, now: nat, v': World, report: Report, j: nat)
    requires Happens(hw, thr, lim, v, step, seen, now, v', report)
    ensures v.state.events <= v'.state.events
    ensures |v.state.events| <= j < |v'.state.events| && v'.state.events[j].Evaluated? ==>
      MadeBy(hw, thr, lim, v.state, v.masks, step, now, v'.state.events[j])
  {
    hide Drawn, Closed, MadeBy, Sample, NewEvents;
    if step.Solves? {
      var x, p :| Handled(hw, thr, lim, v.state, v'.state, x, p, v'.masks, step.threads, step.edges, Sample(v.masks, step.sampled), now, report);
      var u :| Drawn(hw, thr, lim, v.state, u, x, p, step.threads, step.edges, Sample(v.masks, step.sampled), now)
        && Closed(u, v'.state, p, v'.masks, now, report);
      DrawnCandidates(hw, thr, lim, v.state, u, x, p, step.threads, step.edges, Sample(v.masks, step.sampled), now);
      ClosedEvents(u, v'.state, p, v'.masks, now, report);
      var all := v'.state.events;
      if |v.state.events| <= j < |all| && all[j].Evaluated? {
        var e := all[j];
        assert e == u.events[j];
        assert e == NewEvents(x.t, v.state.domains, now)[j - |v.state.events|];
        DrawnEvent(hw, thr, lim, v.state, u, x, p, step, v.masks, now, e);
      }
    }
  }

  /** Every evaluation in the history of a run was made by a window of the run. */
  lemma {:induction false} EvaluationsAreReal(hw: Machine, thr: Thresholds, lim: Limits, first: set<int>, script: seq<Step>, clock: seq<nat>,
                                              worlds: seq<World>, reports: seq<Report>, n: nat, k: nat, j: nat)
    requires History(hw, thr, lim, first, script, clock, worlds, reports, n) && worlds[0].state.events == [] && k <= n
    requires j < |worlds[k].state.events| && worlds[k].state.events[j].Evaluated?
    ensures exists i :: 0 <= i < k && MadeBy(hw, thr, lim, worlds[i].state, worlds[i].masks, script[i], clock[i], worlds[k].state.events[j])
    decreases k
  {
    hide Happens, MadeBy, SeenIds;
    var i := k - 1;
    assert Happens(hw, thr, lim, worlds[i], script[i], SeenIds(first, script, i), clock[i], worlds[i + 1], reports[i]);
    StepEvent(hw, thr, lim, worlds[i], script[i], SeenIds(first, script, i), clock[i], worlds[k], reports[i], j);
    if j < |worlds[i].state.events| {
      assert worlds[i].state.events[j] == worlds[k].state.events[j];
      EvaluationsAreReal(hw, thr, lim, first, script, clock, worlds, reports, n, i, j);
    }
  }

  // ----- evidence -----

  /** A renewal of the evidence of a domain. */
  predicate Evidenced(e: Event, id: Id) {
    (e.Covered? || e.Entered?) && e.id == id
  }

  /** The window of the step had a sound candidate that covers the committed domain. */
  ghost predicate CoversIn(hw: Machine, thr: Thresholds, lim: Limits, v: World, step: Step, now: nat, v': World, report: Report, id: Id,
                           u: State, w: DomainSolver.Window, p: Proposal, j: nat) {
    && step.Solves? && Drawn(hw, thr, lim, v.state, u, w, p, step.threads, step.edges, Sample(v.masks, step.sampled), now)
    && Closed(u, v'.state, p, v'.masks, now, report)
    && j < |v.state.domains| && v.state.domains[j].families == id && Confirmed(w.t.cands, v.state.domains[j])
  }

  /** The domain is committed now and was not before. */
  ghost predicate Enters(s: State, t: State, id: Id) {
    id in IdsOf(t.domains) && id !in IdsOf(s.domains)
  }

  /** The step gave a domain complete evidence: it covered the committed domain, or committed it newly. */
  ghost predicate Renews(hw: Machine, thr: Thresholds, lim: Limits, v: World, step: Step, now: nat, v': World, report: Report, id: Id) {
    || Enters(v.state, v'.state, id)
    || exists u, w, p, j: nat :: CoversIn(hw, thr, lim, v, step, now, v', report, id, u, w, p, j)
  }

  lemma GatheredEvaluations(x: Input, m: Memory, m': Memory, groups: seq<Id>, cands: seq<Domain>, es: seq<seq<Event>>, e: Event)
    requires Candidates(x, m, m', groups, cands, es) && e in Gathered(es)
    ensures e.Evaluated?
  {
    hide Candidates, Ask, WantsMore, WantsFewer, Required, PlacedOf, Gathered;
    var k, required := CandidateEvent(x, m, m', groups, cands, es, e);
    assert e == [e][0];
  }

  /** What the planning part of a window adds. */
  lemma DrawnEvidence(hw: Machine, thr: Thresholds, lim: Limits, v: World, step: Step, now: nat, v': World, report: Report, id: Id,
                      u: State, w: DomainSolver.Window, p: Proposal, e: Event)
    requires step.Solves? && Drawn(hw, thr, lim, v.state, u, w, p, step.threads, step.edges, Sample(v.masks, step.sampled), now)
    requires Closed(u, v'.state, p, v'.masks, now, report) && e in NewEvents(w.t, v.state.domains, now) && Evidenced(e, id)
    ensures e.time == now && Renews(hw, thr, lim, v, step, now, v', report, id)
  {
    DrawnCandidates(hw, thr, lim, v.state, u, w, p, step.threads, step.edges, Sample(v.masks, step.sampled), now);
    hide Drawn, Closed, Candidates, Gathered, CoverEvents, Sample, Confirmed, Enters;
    if e in Gathered(w.t.es) {
      GatheredEvaluations(w.x, v.state.memory, w.t.counted, w.groups, w.t.cands, w.t.es, e);
    }
    CoversMean(v.state.domains, w.t.cands, now, e);
    var j :| 0 <= j < |v.state.domains| && v.state.domains[j].families == e.id && Confirmed(w.t.cands, v.state.domains[j]);
    assert CoversIn(hw, thr, lim, v, step, now, v', report, id, u, w, p, j);
  }

  /** What the end of a window adds: exactly the newly committed domains. */
  lemma ClosedEvidence(u: State, t: State, p: Proposal, masks: map<int, Mask>, now: nat, report: Report, id: Id)
    requires Closed(u, t, p, masks, now, report)
    ensures u.events <= t.events
    ensures forall j :: |u.events| <= j < |t.events| && Evidenced(t.events[j], id) ==> t.events[j].time == now && Enters(u, t, id)
    ensures Enters(u, t, id) ==> exists j :: |u.events| <= j < |t.events| && Evidenced(t.events[j], id)
  {
    var more := AdoptLog(u.memory, IdsOf(u.domains), p.domains, now);
    ClosedAdds(u, t, p, masks, now, report);
    hide Closed, AdoptLog, IdsOf;
    if t.events != u.events || t.domains != u.domains {
      forall j | |u.events| <= j < |t.events| && Evidenced(t.events[j], id)
        ensures t.events[j].time == now && Enters(u, t, id)
      {
        assert t.events[j] == more[j - |u.events|];
        AdoptsMean(u.memory, IdsOf(u.domains), p.domains, now, t.events[j]);
      }
      if Enters(u, t, id) {
        var j := EntryLogged(u.memory, IdsOf(u.domains), p.domains, now, id);
        assert t.events[|u.events| + j] == more[j];
      }
    }
  }

  lemma EntryLogged(m: Memory, active: set<Id>, list: seq<Domain>, now: nat, id: Id) returns (j: nat)
    requires id in IdsOf(list) && id !in active
    ensures j < |AdoptLog(m, active, list, now)| && Evidenced(AdoptLog(m, active, list, now)[j], id)
  {
    hide AdoptLog;
    var d :| d in list && d.families == id;
    var k :| 0 <= k < |list| && list[k] == d;
    AdoptsLogged(m, active, list, now, k);
    var log := AdoptLog(m, active, list, now);
    j :| 0 <= j < |log| && log[j] == Entered(id, now);
  }

  /** A window either commits its domains, or leaves domains and history as they are. */
  lemma ClosedAdds(u: State, t: State, p: Proposal, masks: map<int, Mask>, now: nat, report: Report)
    requires Closed(u, t, p, masks, now, report)
    ensures
      || (t.events == u.events && t.domains == u.domains)
      || (t.events == u.events + AdoptLog(u.memory, IdsOf(u.domains), p.domains, now) && t.domains == p.domains)
  {
    hide Landing, AllAdopted, Idle, AdoptLog;
    if report == ActionCommitted {
      var committed, vanished :| Lands(u, t, p, masks, now, committed, vanished);
    }
  }

  /** One step: exactly the renewals of its window are new in the history. */
  lemma StepEvidence(hw: Machine, thr: Thresholds, lim: Limits, v: World, step: Step, seen: set<int>, now: nat, v': World, report: Report, id: Id)
    requires Happens(hw, thr, lim, v, step, seen, now, v', report)
    ensures v.state.events <= v'.state.events
    ensures forall j :: |v.state.events| <= j < |v'.state.events| && Evidenced(v'.state.events[j], id) ==>
      v'.state.events[j].time == now && Renews(hw, thr, lim, v, step, now, v', report, id)
    ensures Renews(hw, thr, lim, v, step, now, v', report, id) ==>
      exists j :: |v.state.events| <= j < |v'.state.events| && Evidenced(v'.state.events[j], id)
  {
    hide *;
    if step.Solves? {
      var u, w, p := Course(hw, thr, lim, v, step, seen, now, v', report);
      StepAdds(hw, thr, lim, v, step, now, v', report, id, u, w, p);
      if Renews(hw, thr, lim, v, step, now, v', report, id) {
        RenewalLogged(hw, thr, lim, v, step, now, v', report, id, u, w, p);
      }
    } else {
      Elapsed(hw, thr, lim, v, step, seen, now, v', report, id);
    }
  }

  lemma Course(hw: Machine, thr: Thresholds, lim: Limits, v: World, step: Step, seen: set<int>, now: nat, v': World, report: Report)
    returns (u: State, w: DomainSolver.Window, p: Proposal)
    requires Happens(hw, thr, lim, v, step, seen, now, v', report) && step.Solves?
    ensures Drawn(hw, thr, lim, v.state, u, w, p, step.threads, step.edges, Sample(v.masks, step.sampled), now)
    ensures Closed(u, v'.state, p, v'.masks, now, report)
  {
    hide Drawn, Closed, Sample;
    w, p :| Handled(hw, thr, lim, v.state, v'.state, w, p, v'.masks, step.threads, step.edges, Sample(v.masks, step.sampled), now, report);
    u :| Drawn(hw, thr, lim, v.state, u, w, p, step.threads, step.edges, Sample(v.masks, step.sampled), now)
      && Closed(u, v'.state, p, v'.masks, now, report);
  }

  lemma Elapsed(hw: Machine, thr: Thresholds, lim: Limits, v: World, step: Step, seen: set<int>, now: nat, v': World, report: Report, id: Id)
    requires Happens(hw, thr, lim, v, step, seen, now, v', report) && !step.Solves?
    ensures v'.state == v.state && !Renews(hw, thr, lim, v, step, now, v', report, id)
  {
    hide Drawn, Closed;
  }

  lemma StepAdds(hw: Machine, thr: Thresholds, lim: Limits, v: World, step: Step, now: nat, v': World, report: Report, id: Id,
                 u: State, w: DomainSolver.Window, p: Proposal)
    requires step.Solves? && Drawn(hw, thr, lim, v.state, u, w, p, step.threads, step.edges, Sample(v.masks, step.sampled), now)
    requires Closed(u, v'.state, p, v'.masks, now, report)
    ensures v.state.events <= v'.state.events
    ensures forall j :: |v.state.events| <= j < |v'.state.events| && Evidenced(v'.state.events[j], id) ==>
      v'.state.events[j].time == now && Renews(hw, thr, lim, v, step, now, v', report, id)
  {
    hide *;
    DrawnPlan(hw, thr, lim, v.state, u, w, p, step.threads, step.edges, Sample(v.masks, step.sampled), now);
    ClosedEvidence(u, v'.state, p, v'.masks, now, report, id);
    var was, all, added := v.state.events, v'.state.events, NewEvents(w.t, v.state.domains, now);
    forall j | |was| <= j < |all| && Evidenced(all[j], id)
      ensures all[j].time == now && Renews(hw, thr, lim, v, step, now, v', report, id)
    {
      if j < |u.events| {
        AddedAt(was, added, u.events, all, j);
        DrawnEvidence(hw, thr, lim, v, step, now, v', report, id, u, w, p, all[j]);
      } else {
        EntryRenews(hw, thr, lim, v, step, now, v', report, id, u);
      }
    }
  }

  lemma AddedAt(was: seq<Event>, added: seq<Event>, mid: seq<Event>, all: seq<Event>, j: nat)
    requires mid == was + added && mid <= all && |was| <= j < |mid|
    ensures all[j] in added
  {
    assert all[j] == added[j - |was|];
  }

  lemma EntryRenews(hw: Machine, thr: Thresholds, lim: Limits, v: World, step: Step, now: nat, v': World, report: Report, id: Id, u: State)
    requires u.domains == v.state.domains
    ensures Enters(u, v'.state, id) ==> Renews(hw, thr, lim, v, step, now, v', report, id)
  {
    hide CoversIn, IdsOf;
  }

  lemma RenewalLogged(hw: Machine, thr: Thresholds, lim: Limits, v: World, step: Step, now: nat, v': World, report: Report, id: Id,
                      u0: State, w0: DomainSolver.Window, p0: Proposal)
    requires step.Solves? && Drawn(hw, thr, lim, v.state, u0, w0, p0, step.threads, step.edges, Sample(v.masks, step.sampled), now)
    requires Closed(u0, v'.state, p0, v'.masks, now, report) && Renews(hw, thr, lim, v, step, now, v', report, id)
    ensures exists j :: |v.state.events| <= j < |v'.state.events| && Evidenced(v'.state.events[j], id)
  {
    hide Drawn, Closed, Sample, NewEvents, IdsOf, CoversIn, Evidenced;
    if Enters(v.state, v'.state, id) {
      DrawnPlan(hw, thr, lim, v.state, u0, w0, p0, step.threads, step.edges, Sample(v.masks, step.sampled), now);
      ClosedEvidence(u0, v'.state, p0, v'.masks, now, report, id);
      assert Enters(u0, v'.state, id);
    } else {
      var u, w, p, k: nat :| CoversIn(hw, thr, lim, v, step, now, v', report, id, u, w, p, k);
      CoverLogged(hw, thr, lim, v, step, now, v', report, id, u, w, p, k);
    }
  }

  lemma CoverLogged(hw: Machine, thr: Thresholds, lim: Limits, v: World, step: Step, now: nat, v': World, report: Report, id: Id,
                    u: State, w: DomainSolver.Window, p: Proposal, k: nat)
    requires CoversIn(hw, thr, lim, v, step, now, v', report, id, u, w, p, k)
    ensures exists j :: |v.state.events| <= j < |v'.state.events| && Evidenced(v'.state.events[j], id)
  {
    hide *;
    CoversInParts(hw, thr, lim, v, step, now, v', report, id, u, w, p, k);
    DrawnPlan(hw, thr, lim, v.state, u, w, p, step.threads, step.edges, Sample(v.masks, step.sampled), now);
    ClosedEvidence(u, v'.state, p, v'.masks, now, report, id);
    var i := CoverIndex(w.t, v.state.domains, now, k);
    StandsAt(v.state.events, NewEvents(w.t, v.state.domains, now), u.events, v'.state.events, i);
  }

  lemma CoversInParts(hw: Machine, thr: Thresholds, lim: Limits, v: World, step: Step, now: nat, v': World, report: Report, id: Id,
                      u: State, w: DomainSolver.Window, p: Proposal, k: nat)
    requires CoversIn(hw, thr, lim, v, step, now, v', report, id, u, w, p, k)
    ensures step.Solves? && Drawn(hw, thr, lim, v.state, u, w, p, step.threads, step.edges, Sample(v.masks, step.sampled), now)
    ensures Closed(u, v'.state, p, v'.masks, now, report)
    ensures k < |v.state.domains| && v.state.domains[k].families == id && Confirmed(w.t.cands, v.state.domains[k])
  {
    hide Drawn, Closed, Sample, Confirmed;
  }

  lemma StandsAt(was: seq<Event>, added: seq<Event>, mid: seq<Event>, all: seq<Event>, i: nat)
    requires mid == was + added && mid <= all && i < |added|
    ensures |was| + i < |all| && all[|was| + i] == added[i]
  {
  }

  lemma CoverIndex(t: DomainWindow.Trace, committed: seq<Domain>, now: nat, k: nat) returns (i: nat)
    requires k < |committed| && Confirmed(t.cands, committed[k])
    ensures i < |NewEvents(t, committed, now)| && Evidenced(NewEvents(t, committed, now)[i], committed[k].families)
  {
    hide Gathered, CoverEvents, Confirmed;
    CoversLogged(committed, t.cands, now, k);
    var covers := CoverEvents(committed, t.cands, now);
    var j :| 0 <= j < |covers| && covers[j] == Covered(committed[k].families, now);
    i := |Gathered(t.es)| + j;
  }

  // ----- evidence over a run -----

  /** The step of a run in which an event was recorded. */
  lemma {:induction false} BornAt(hw: Machine, thr: Thresholds, lim: Limits, first: set<int>, script: seq<Step>, clock: seq<nat>,
                                  worlds: seq<World>, reports: seq<Report>, n: nat, k: nat, j: nat, id: Id) returns (i: nat)
    requires History(hw, thr, lim, first, script, clock, worlds, reports, n) && worlds[0].state.events == [] && k <= n
    requires j < |worlds[k].state.events| && Evidenced(worlds[k].state.events[j], id)
    ensures i < k && clock[i] == worlds[k].state.events[j].time
    ensures Renews(hw, thr, lim, worlds[i], script[i], clock[i], worlds[i + 1], reports[i], id)
    decreases k
  {
    hide Happens, SeenIds, Renews, Sane;
    i := k - 1;
    assert Happens(hw, thr, lim, worlds[i], script[i], SeenIds(first, script, i), clock[i], worlds[i + 1], reports[i]);
    StepEvidence(hw, thr, lim, worlds[i], script[i], SeenIds(first, script, i), clock[i], worlds[k], reports[i], id);
    if j < |worlds[i].state.events| {
      assert worlds[i].state.events[j] == worlds[k].state.events[j];
      i := BornAt(hw, thr, lim, first, script, clock, worlds, reports, n, i, j, id);
    }
  }

  lemma {:induction false} LastEvidenceAt(events: seq<Event>, id: Id) returns (j: nat)
    requires LastEvidence(events, id).Some?
    ensures j < |events| && Evidenced(events[j], id) && LastEvidence(events, id).value == events[j].time
    decreases |events|
  {
    j := |events| - 1;
    if !Evidenced(events[j], id) {
      j := LastEvidenceAt(events[..j], id);
    }
  }

  /** In any run, the time of the last evidence of a domain is that of a window of the run that
  covered the committed domain or committed it newly. */
  lemma EvidenceIsReal(hw: Machine, thr: Thresholds, lim: Limits, first: set<int>, script: seq<Step>, clock: seq<nat>,
                       worlds: seq<World>, reports: seq<Report>, n: nat, k: nat, id: Id)
    returns (i: nat)
    requires History(hw, thr, lim, first, script, clock, worlds, reports, n) && worlds[0].state.events == [] && k <= n
    requires LastEvidence(worlds[k].state.events, id).Some?
    ensures i < k && clock[i] == LastEvidence(worlds[k].state.events, id).value
    ensures Renews(hw, thr, lim, worlds[i], script[i], clock[i], worlds[i + 1], reports[i], id)
  {
    hide *;
    HistorySane(hw, thr, lim, first, script, clock, worlds, reports, n, k);
    var j := LastEvidenceAt(worlds[k].state.events, id);
    i := BornAt(hw, thr, lim, first, script, clock, worlds, reports, n, k, j, id);
  }

  /** The last evidence is no older than that. */
  predicate NoOlder(last: Option<nat>, time: nat) {
    last.Some? && last.value >= time
  }

  lemma {:induction false} LastEvidenceLater(events: seq<Event>, more: seq<Event>, id: Id, time: nat)
    requires events <= more && (forall j :: |events| <= j < |more| && Evidenced(more[j], id) ==> more[j].time >= time)
    requires NoOlder(LastEvidence(events, id), time) || exists j :: |events| <= j < |more| && Evidenced(more[j], id)
    ensures NoOlder(LastEvidence(more, id), time)
    decreases |more|
  {
    var n := |more| - 1;
    if |events| == |more| {
      assert events == more;
    } else if !Evidenced(more[n], id) {
      var rest := more[..n];
      forall j | |events| <= j < |more| && Evidenced(more[j], id)
        ensures j < n && Evidenced(rest[j], id)
      {
      }
      LastEvidenceLater(events, rest, id, time);
    }
  }

  /** In any run, evidence once given is remembered: the last evidence is never older than it. */
  lemma {:induction false} EvidenceLasts(hw: Machine, thr: Thresholds, lim: Limits, first: set<int>, script: seq<Step>, clock: seq<nat>,
                                         worlds: seq<World>, reports: seq<Report>, n: nat, i: nat, k: nat, id: Id)
    requires History(hw, thr, lim, first, script, clock, worlds, reports, n) && i < k <= n
    requires forall a, b :: 0 <= a < b < |clock| ==> clock[a] <= clock[b]
    requires Renews(hw, thr, lim, worlds[i], script[i], clock[i], worlds[i + 1], reports[i], id)
    ensures NoOlder(LastEvidence(worlds[k].state.events, id), clock[i])
    decreases k
  {
    hide Happens, SeenIds, Renews, Sane, NoOlder, LastEvidence;
    var b := k - 1;
    assert Happens(hw, thr, lim, worlds[b], script[b], SeenIds(first, script, b), clock[b], worlds[b + 1], reports[b]);
    StepEvidence(hw, thr, lim, worlds[b], script[b], SeenIds(first, script, b), clock[b], worlds[k], reports[b], id);
    if i < b {
      EvidenceLasts(hw, thr, lim, first, script, clock, worlds, reports, n, i, b, id);
    }
    LastEvidenceLater(worlds[b].state.events, worlds[k].state.events, id, clock[i]);
  }

  /** In any run: a committed domain that some window of the run covered or newly committed less than
  the dwell ago, that has a live member and that no candidate of this window covers, is in the
  proposal of this window with its nodes and its mask. */
  lemma HeldInRun(hw: Machine, thr: Thresholds, lim: Limits, first: set<int>, script: seq<Step>, clock: seq<nat>,
                  worlds: seq<World>, reports: seq<Report>, n: nat, i: nat, u: State, w: DomainSolver.Window, p: Proposal,
                  threads: seq<Thread>, edges: seq<Edge>, allowed: map<int, Mask>, now: nat, j: nat)
    returns (k: nat)
    requires History(hw, thr, lim, first, script, clock, worlds, reports, n) && i < n
    requires forall a, b :: 0 <= a < b < |clock| ==> clock[a] <= clock[b]
    requires Drawn(hw, thr, lim, worlds[n].state, u, w, p, threads, edges, allowed, now) && clock[n - 1] <= now
    requires j < |worlds[n].state.domains|
    requires var c := worlds[n].state.domains[j];
      && Renews(hw, thr, lim, worlds[i], script[i], clock[i], worlds[i + 1], reports[i], c.families) && now - clock[i] < lim.dwell
      && TidsOf(threads, c.families) != {} && !AnyCovers(w.t.cands, c)
    ensures k < |p.domains| && p.domains[k].families == worlds[n].state.domains[j].families
    ensures p.domains[k].nodes == worlds[n].state.domains[j].nodes && p.domains[k].mask == worlds[n].state.domains[j].mask
  {
    hide *;
    HistorySane(hw, thr, lim, first, script, clock, worlds, reports, n, n);
    var s, id := worlds[n].state, worlds[n].state.domains[j].families;
    DrawnPlan(hw, thr, lim, s, u, w, p, threads, edges, allowed, now);
    EvidenceLasts(hw, thr, lim, first, script, clock, worlds, reports, n, i, n, id);
    DrawnCandidates(hw, thr, lim, s, u, w, p, threads, edges, allowed, now);
    StillRecent(w, s, id, now, clock[i]);
    NoOlderMeans(LastEvidence(u.events, id), clock[i]);
    HoldGuarantee(w.x, s.memory, u.memory, s.domains, w.groups, w.t, p.domains, p.valid, p.planned, u.events, j);
    k :| 0 <= k < |p.domains| && p.domains[k].families == id
      && p.domains[k].nodes == s.domains[j].nodes && p.domains[k].mask == s.domains[j].mask;
  }

  lemma NoOlderMeans(last: Option<nat>, time: nat)
    requires NoOlder(last, time)
    ensures last.Some? && last.value >= time
  {
  }

  lemma StillRecent(w: DomainSolver.Window, s: State, id: Id, now: nat, time: nat)
    requires NoOlder(LastEvidence(s.events, id), time) && time <= now
    requires Candidates(w.x, s.memory, w.t.counted, w.groups, w.t.cands, w.t.es)
    ensures NoOlder(LastEvidence(s.events + NewEvents(w.t, s.domains, now), id), time)
  {
    hide NoOlder, LastEvidence, Gathered, CoverEvents, Candidates;
    var added := NewEvents(w.t, s.domains, now);
    var all := s.events + added;
    forall j | |s.events| <= j < |all| && Evidenced(all[j], id)
      ensures all[j].time >= time
    {
      var e := added[j - |s.events|];
      assert e == all[j] && e in added;
      if e in Gathered(w.t.es) {
        GatheredEvaluations(w.x, s.memory, w.t.counted, w.groups, w.t.cands, w.t.es, e);
      }
      CoversMean(s.domains, w.t.cands, now, e);
    }
    LastEvidenceLater(s.events, all, id, time);
  }

  // ----- streaks -----

  function StreakOf(events: seq<Event>, id: Id, more: bool): nat {
    if more then ExpandStreak(events, id) else ShrinkStreak(events, id)
  }

  /** An evaluation of the domain that wanted more nodes, or fewer. */
  predicate Wanted(e: Event, id: Id, more: bool) {
    e.Evaluated? && e.id == id && if more then e.expand else e.shrink
  }

  /** The positions are those of the last evaluations of a domain, and each wanted that. */
  ghost predicate Latest(events: seq<Event>, id: Id, more: bool, at: seq<nat>) {
    && (forall i :: 0 <= i < |at| ==> at[i] < |events| && Wanted(events[at[i]], id, more))
    && (forall i, j :: 0 <= i < j < |at| ==> at[i] < at[j])
    && (forall j :: 0 <= j < |events| && at != [] && at[0] <= j && events[j].Evaluated? && events[j].id == id ==> j in at)
  }

  lemma {:induction false} StreakPositions(events: seq<Event>, id: Id, more: bool, k: nat) returns (at: seq<nat>)
    requires k <= StreakOf(events, id, more)
    ensures |at| == k && Latest(events, id, more, at)
    decreases |events|
  {
    if k == 0 {
      at := [];
    } else {
      var n := |events| - 1;
      var e, rest := events[n], events[..n];
      if e.Evaluated? && e.id == id {
        var before := StreakPositions(rest, id, more, k - 1);
        at := before + [n];
        assert at[k - 1] == n;
        forall j | 0 <= j < |events| && at[0] <= j && events[j].Evaluated? && events[j].id == id
          ensures j in at
        {
          if j < n {
            assert rest[j] == events[j];
            assert before != [] ==> j in before;
          }
        }
      } else {
        at := StreakPositions(rest, id, more, k);
      }
    }
  }

  /** In any run, a window proposes other nodes for a sound domain than its committed ones only if the
  required number of its latest evaluations, the one of this window included, all wanted more nodes,
  or all wanted fewer; and each of the earlier ones was made by a window of the run. */
  lemma NodesChangeAfterRealStreak(hw: Machine, thr: Thresholds, lim: Limits, first: set<int>, script: seq<Step>, clock: seq<nat>,
                                   worlds: seq<World>, reports: seq<Report>, n: nat, u: State, w: DomainSolver.Window, p: Proposal,
                                   threads: seq<Thread>, edges: seq<Edge>, allowed: map<int, Mask>, now: nat, i: nat)
    returns (more: bool, k: nat, at: seq<nat>)
    requires History(hw, thr, lim, first, script, clock, worlds, reports, n) && worlds[0].state.events == []
    requires Drawn(hw, thr, lim, worlds[n].state, u, w, p, threads, edges, allowed, now) && i < |p.domains|
    requires var d, nodes := p.domains[i], NodesOf(worlds[n].state.memory, p.domains[i].families);
      d.verdict == Sound && nodes != [] && d.nodes != nodes
    ensures k < |w.t.es| && |w.t.es[k]| == 1 && Wanted(w.t.es[k][0], p.domains[i].families, more)
    ensures |at| + 1 == (if more then lim.expandConfirmations else lim.shrinkConfirmations)
    ensures Latest(worlds[n].state.events, p.domains[i].families, more, at)
    ensures forall j :: 0 <= j < |at| ==> exists b ::
      0 <= b < n && MadeBy(hw, thr, lim, worlds[b].state, worlds[b].masks, script[b], clock[b], worlds[n].state.events[at[j]])
  {
    hide *;
    HistorySane(hw, thr, lim, first, script, clock, worlds, reports, n, n);
    var s, id := worlds[n].state, p.domains[i].families;
    DrawnPlan(hw, thr, lim, s, u, w, p, threads, edges, allowed, now);
    var required;
    k, required := NodesOnlyAfterStreak(w.x, s.memory, u.memory, s.domains, w.groups, w.t, p.domains, p.valid, p.planned, s.events, i);
    more := WhichStreak(lim, s.events, id, w.t.es[k][0]);
    at := StreakPositions(s.events, id, more, (if more then lim.expandConfirmations else lim.shrinkConfirmations) - 1);
    forall j | 0 <= j < |at|
      ensures exists b ::
        0 <= b < n && MadeBy(hw, thr, lim, worlds[b].state, worlds[b].masks, script[b], clock[b], s.events[at[j]])
    {
      LatestAt(s.events, id, more, at, j);
      EvaluationsAreReal(hw, thr, lim, first, script, clock, worlds, reports, n, n, at[j]);
    }
  }

  lemma HistorySane(hw: Machine, thr: Thresholds, lim: Limits, first: set<int>, script: seq<Step>, clock: seq<nat>,
                    worlds: seq<World>, reports: seq<Report>, n: nat, k: nat)
    requires History(hw, thr, lim, first, script, clock, worlds, reports, n) && k <= n
    ensures |worlds| == n + 1 && |reports| == n <= |script| == |clock|
    ensures var s := worlds[k].state; lim.Valid() && Tracks(s.memory, s.events) && Settled(hw, s.memory, s.domains)
  {
    hide Happens, Tracks, Settled, Dated, Spaced, Timely, Limits.Valid, SeenIds;
    assert Sane(hw, lim, worlds[k].state);
  }

  lemma DrawnPlan(hw: Machine, thr: Thresholds, lim: Limits, s: State, u: State, w: DomainSolver.Window, p: Proposal,
                  threads: seq<Thread>, edges: seq<Edge>, allowed: map<int, Mask>, now: nat)
    requires Drawn(hw, thr, lim, s, u, w, p, threads, edges, allowed, now)
    ensures w.x.hw == hw && w.x.lim == lim && w.x.now == now && w.x.threads == threads
    ensures WindowPlan(w.x, s.memory, u.memory, s.domains, w.groups, w.t, p.domains, p.valid, p.planned)
    ensures GroupsApart(w.groups) && GroupsPeopled(w.groups) && Tracks(u.memory, u.events)
    ensures u.domains == s.domains && u.events == s.events + NewEvents(w.t, s.domains, now)
  {
    hide SignatureOf, NewEvents, GroupedBy, TidsIn, Convinces, Logged, WindowPlan, GroupsApart, GroupsPeopled;
    hide InheritedOf, Writes, SameRun, Tracks, Dated, Spaced, Timely;
  }

  lemma LatestAt(events: seq<Event>, id: Id, more: bool, at: seq<nat>, j: nat)
    requires Latest(events, id, more, at) && j < |at|
    ensures at[j] < |events| && events[at[j]].Evaluated?
  {
  }

  lemma WhichStreak(lim: Limits, events: seq<Event>, id: Id, e: Event) returns (more: bool)
    requires lim.Valid() && CompletesStreak(lim, events, id, e)
    ensures Wanted(e, id, more) && (if more then lim.expandConfirmations else lim.shrinkConfirmations) >= 1
    ensures (if more then lim.expandConfirmations else lim.shrinkConfirmations) - 1 <= StreakOf(events, id, more)
  {
    hide ExpandStreak, ShrinkStreak;
    more := e.expand && ExpandStreak(events, id) + 1 >= lim.expandConfirmations;
  }
}
