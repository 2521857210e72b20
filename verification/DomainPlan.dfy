/** The plan of a whole window (src/domain_solver.cpp:360-589): the evidence domains, the
committed domains that are held, and the masks of their threads. */
module DomainPlan {
  import opened Lists
  import opened Topology
  import opened NodeChoice
  import opened Domains

  // ----- evidence domains -----

  function PlacedOf(cands: seq<Domain>): seq<(seq<Family>, seq<int>)> {
    seq(|cands|, i requires 0 <= i < |cands| => (cands[i].families, cands[i].nodes))
  }

  /** Every domain with committed nodes has a time of its last change. */
  ghost predicate Dated(m: Memory) {
    forall id :: NodesOf(m, id) != [] ==> id in m.changed
  }

  /** What one window does with a group of families whose committed nodes are on record: it is
  evaluated once, exactly if it is small enough and some nodes have the capacity, and the
  evaluation says whether it wanted more or fewer nodes.  It leaves its committed nodes for the
  best ones exactly if that evaluation completes the required streak. */
  ghost predicate Assessed(x: Input, m: Memory, placed: seq<(seq<Family>, seq<int>)>, d: Domain, e: seq<Event>, required: seq<int>) {
    var q, previous := Ask(x, d.families, placed), NodesOf(m, d.families);
    var expand, shrink := WantsMore(x, q.demand, previous, required), WantsFewer(x, m, d.families, q.demand, previous, required);
    && Required(q, required)
    && (if |d.tids| <= x.lim.maxThreads && required != [] && previous != []
        then
          && e == [Evaluated(d.families, expand, shrink, x.now)]
          && d.nodes == (if (expand && Look(m.expand, d.families) + 1 >= x.lim.expandConfirmations)
                            || (shrink && Look(m.shrink, d.families) + 1 >= x.lim.shrinkConfirmations)
                         then required else previous)
        else e == [] && d.nodes == required)
  }

  /** One evidence domain, as planned with the memory `m` of before the window: its threads, its
  CPUs, when it is sound, and the evaluation `e` that it went through. */
  ghost predicate Candidate(x: Input, m: Memory, placed: seq<(seq<Family>, seq<int>)>, d: Domain, e: seq<Event>) {
    var q := Ask(x, d.families, placed);
    && d.tids == TidsOf(x.threads, d.families) && d.mask == MaskFor(x.hw, d.nodes)
    && (d.verdict == Sound <==> |d.tids| <= x.lim.maxThreads && Fits(q, Nodes(x.hw)) && !Starves(x, d.mask, d.tids))
    && (exists required :: Assessed(x, m, placed, d, e, required))
  }

  /** The memory differs in the confirmation counters at most. */
  ghost predicate OnlyCounters(m: Memory, m': Memory) {
    m' == m.(expand := m'.expand, shrink := m'.shrink)
  }

  /** The counters of a domain are those of before the window. */
  ghost predicate Uncounted(m: Memory, m': Memory, id: Id) {
    Look(m'.expand, id) == Look(m.expand, id) && Look(m'.shrink, id) == Look(m.shrink, id)
  }

  lemma PlansMeans(x: Input, m0: Memory, m: Memory, m': Memory, families: Id, placed: seq<(seq<Family>, seq<int>)>, d: Domain, e: seq<Event>)
    requires x.lim.Valid() && Plans(x, m, m', families, placed, d, e) && OnlyCounters(m0, m) && Uncounted(m0, m, families)
    ensures Candidate(x, m0, placed, d, e) && d.families == families && OnlyCounters(m0, m')
    ensures forall id :: id != families ==> Uncounted(m, m', id)
  {
    hide Ask, TidsOf, MaskFor, Fits, Nodes, Starves, Best, WantsMore, WantsFewer, Required;
    var q := Ask(x, families, placed);
    var required :| Required(q, required)
      && Decides(x, m, m', families, q.demand, required, |d.tids| <= x.lim.maxThreads && required != [], d.nodes, e);
    SameWants(x, m0, m, families, q.demand, NodesOf(m, families), required);
    assert NodesOf(m, families) == NodesOf(m0, families);
    assert Assessed(x, m0, placed, d, e, required);
  }

  lemma SameWants(x: Input, m0: Memory, m: Memory, id: Id, demand: real, previous: seq<int>, required: seq<int>)
    requires OnlyCounters(m0, m)
    ensures WantsFewer(x, m, id, demand, previous, required) == WantsFewer(x, m0, id, demand, previous, required)
  {
    hide Utilization;
  }

  lemma AskIs(x: Input, families: Id, placed: seq<(seq<Family>, seq<int>)>)
    ensures Ask(x, families, placed).hw == x.hw
  {
    hide MembersOf, TotalDemand;
  }

  /** The history goes on with the evaluation, if there was one. */
  lemma PlansTracked(x: Input, m0: Memory, m: Memory, m': Memory, families: Id, placed: seq<(seq<Family>, seq<int>)>, d: Domain, e: seq<Event>, events: seq<Event>)
    requires Plans(x, m, m', families, placed, d, e) && OnlyCounters(m0, m) && Dated(m0)
    requires Tracks(m, events) && Spaced(events, x.lim.dwell) && Timely(events, x.now)
    ensures Tracks(m', events + e) && Spaced(events + e, x.lim.dwell) && Timely(events + e, x.now)
  {
    hide Ask, TidsOf, MaskFor, Fits, Nodes, Starves, Best, Required, Tracks, Spaced;
    var q := Ask(x, families, placed);
    var required :| Required(q, required)
      && Decides(x, m, m', families, q.demand, required, |d.tids| <= x.lim.maxThreads && required != [], d.nodes, e);
    assert events + [] == events;
    if e != [] {
      var previous := NodesOf(m, families);
      var expand, shrink := WantsMore(x, q.demand, previous, required), WantsFewer(x, m, families, q.demand, previous, required);
      assert NodesOf(m0, families) == previous;
      TracksEvaluated(m, events, families, expand, shrink, x.now);
      TracksChange(m, events, families);
      SpacedMore(events, x.lim.dwell, Evaluated(families, expand, shrink, x.now));
    }
  }

  lemma TracksChange(m: Memory, events: seq<Event>, id: Id)
    requires Tracks(m, events) && id in m.changed
    ensures LastChange(events, id) == Some(m.changed[id])
  {
    assert Find(m.changed, id) == LastChange(events, id);
  }

  /** The evidence domains of a window: one for each group, in order, with their evaluations. */
  ghost predicate Candidates(x: Input, m: Memory, m': Memory, groups: seq<Id>, cands: seq<Domain>, es: seq<seq<Event>>) {
    && |cands| <= |groups| && |es| == |cands| && OnlyCounters(m, m')
    && (forall i :: 0 <= i < |cands| ==> cands[i].families == groups[i])
    && (forall i :: 0 <= i < |cands| ==> Candidate(x, m, PlacedOf(cands[..i]), cands[i], es[i]))
    && (forall i :: |cands| <= i < |groups| ==> Uncounted(m, m', groups[i]))
  }

  function Gathered(es: seq<seq<Event>>): seq<Event> {
    if es == [] then [] else Gathered(es[..|es| - 1]) + es[|es| - 1]
  }

  lemma GatheredMore(es: seq<seq<Event>>, e: seq<Event>)
    ensures Gathered(es + [e]) == Gathered(es) + e
  {
    assert (es + [e])[..|es|] == es;
  }

  lemma CandidatesMore(x: Input, m0: Memory, m: Memory, m': Memory, groups: seq<Id>, cands: seq<Domain>, es: seq<seq<Event>>,
                       d: Domain, e: seq<Event>)
    requires x.lim.Valid() && Candidates(x, m0, m, groups, cands, es) && |cands| < |groups| && Distinct(groups)
    requires Plans(x, m, m', groups[|cands|], PlacedOf(cands), d, e)
    ensures Candidates(x, m0, m', groups, cands + [d], es + [e])
  {
    hide Plans, Candidate, PlacedOf;
    var n, more := |cands|, cands + [d];
    PlansMeans(x, m0, m, m', groups[n], PlacedOf(cands), d, e);
    forall i | 0 <= i < |more|
      ensures more[i].families == groups[i] && Candidate(x, m0, PlacedOf(more[..i]), more[i], (es + [e])[i])
    {
      if i < n {
        assert more[..i] == cands[..i] && more[i] == cands[i] && (es + [e])[i] == es[i];
      } else {
        assert more[..i] == cands;
      }
    }
    forall i | |more| <= i < |groups|
      ensures Uncounted(m0, m', groups[i])
    {
      assert groups[i] != groups[n];
      assert Uncounted(m, m', groups[i]) && Uncounted(m0, m, groups[i]);
    }
  }

  /** Lines 360-465.  The history goes on with exactly the evaluations of the groups. */
  method PlanGroups(x: Input, m: Memory, groups: seq<Id>, ghost events: seq<Event>)
    returns (cands: seq<Domain>, m': Memory, ghost es: seq<seq<Event>>)
    requires x.lim.Valid() && Distinct(groups) && Dated(m)
    requires Tracks(m, events) && Spaced(events, x.lim.dwell) && Timely(events, x.now)
    ensures Candidates(x, m, m', groups, cands, es) && |cands| == |groups|
    ensures var events' := events + Gathered(es); Tracks(m', events') && Spaced(events', x.lim.dwell) && Timely(events', x.now)
  {
    hide Candidates, Tracks, Spaced, Timely, Plans, PlacedOf, Distinct, Dated, OnlyCounters, Gathered;
    cands, m', es := [], m, [];
    ghost var events' := events;
    NoCandidates(x, m, groups, events);
    for i := 0 to |groups|
      invariant |cands| == i && Candidates(x, m, m', groups, cands, es) && events' == events + Gathered(es)
      invariant Tracks(m', events') && Spaced(events', x.lim.dwell) && Timely(events', x.now)
    {
      CandidatesFrame(x, m, m', groups, cands, es);
      var d, next, e := PlanDomain(x, m', groups[i], PlacedOf(cands));
      CandidatesMore(x, m, m', next, groups, cands, es, d, e);
      PlansTracked(x, m, m', next, groups[i], PlacedOf(cands), d, e, events');
      GatheredMore(es, e);
      assert events + (Gathered(es) + e) == (events + Gathered(es)) + e;
      cands, m', es, events' := cands + [d], next, es + [e], events' + e;
    }
  }

  lemma NoCandidates(x: Input, m: Memory, groups: seq<Id>, events: seq<Event>)
    ensures Candidates(x, m, m, groups, [], []) && events + Gathered([]) == events
  {
  }

  lemma CandidatesFrame(x: Input, m: Memory, m': Memory, groups: seq<Id>, cands: seq<Domain>, es: seq<seq<Event>>)
    requires Candidates(x, m, m', groups, cands, es)
    ensures OnlyCounters(m, m')
  {
    hide Candidate;
  }

  // ----- complete evidence -----

  predicate Covers(d: Domain, c: Domain) {
    forall f :: f in c.families ==> f in d.families
  }

  /** Lines 472-483: a sound candidate has all the families of a committed domain. */
  predicate Confirmed(cands: seq<Domain>, c: Domain) {
    exists i :: 0 <= i < |cands| && cands[i].verdict == Sound && Covers(cands[i], c)
  }

  /** The evidence of exactly the confirmed committed domains was renewed. */
  ghost predicate Renewed(committed: seq<Domain>, cands: seq<Domain>, m: Memory, m': Memory, now: nat) {
    && m' == m.(evidence := m'.evidence)
    && (forall i :: 0 <= i < |committed| && Confirmed(cands, committed[i]) ==> Find(m'.evidence, committed[i].families) == Some(now))
    && (forall id :: Find(m'.evidence, id) != Find(m.evidence, id) ==>
          exists i :: 0 <= i < |committed| && committed[i].families == id && Confirmed(cands, committed[i]))
  }

  lemma RenewedMore(committed: seq<Domain>, cands: seq<Domain>, m: Memory, m': Memory, now: nat, i: nat)
    requires i < |committed| && Renewed(committed[..i], cands, m, m', now)
    ensures var c := committed[i];
      Renewed(committed[..i + 1], cands, m, if Confirmed(cands, c) then m'.(evidence := m'.evidence[c.families := now]) else m', now)
  {
    hide Confirmed;
    var c, few, more := committed[i], committed[..i], committed[..i + 1];
    var next := if Confirmed(cands, c) then m'.(evidence := m'.evidence[c.families := now]) else m';
    forall j | 0 <= j < |more| && Confirmed(cands, more[j])
      ensures Find(next.evidence, more[j].families) == Some(now)
    {
      if j < i {
        assert more[j] == few[j];
      }
    }
    forall id | Find(next.evidence, id) != Find(m.evidence, id)
      ensures exists j :: 0 <= j < |more| && more[j].families == id && Confirmed(cands, more[j])
    {
      if id == c.families && Confirmed(cands, c) {
        assert more[i] == c;
      } else {
        var j :| 0 <= j < |few| && few[j].families == id && Confirmed(cands, few[j]);
        assert more[j] == few[j];
      }
    }
  }

  /** One renewal for each committed domain that a sound candidate stands behind. */
  function CoverEvents(committed: seq<Domain>, cands: seq<Domain>, now: nat): seq<Event> {
    if committed == [] then []
    else
      var n := |committed| - 1;
      CoverEvents(committed[..n], cands, now) + (if Confirmed(cands, committed[n]) then [Covered(committed[n].families, now)] else [])
  }

  lemma CoverEventsStep(committed: seq<Domain>, cands: seq<Domain>, now: nat, i: nat)
    requires i < |committed|
    ensures CoverEvents(committed[..i + 1], cands, now) ==
      CoverEvents(committed[..i], cands, now) + (if Confirmed(cands, committed[i]) then [Covered(committed[i].families, now)] else [])
  {
    hide Confirmed;
    assert committed[..i + 1][..i] == committed[..i];
  }

  /** Lines 471-486. */
  method Renew(committed: seq<Domain>, cands: seq<Domain>, m: Memory, now: nat, dwell: nat, ghost events: seq<Event>)
    returns (m': Memory)
    requires Tracks(m, events) && Spaced(events, dwell) && Timely(events, now)
    ensures Renewed(committed, cands, m, m', now)
    ensures var events' := events + CoverEvents(committed, cands, now); Tracks(m', events') && Spaced(events', dwell) && Timely(events', now)
  {
    hide Tracks, Spaced, Confirmed, Renewed, CoverEvents;
    m' := m;
    ghost var events', more := events, [];
    RenewedNone(cands, m, now);
    assert committed[..0] == [];
    for i := 0 to |committed|
      invariant Renewed(committed[..i], cands, m, m', now)
      invariant more == CoverEvents(committed[..i], cands, now) && events' == events + more
      invariant Tracks(m', events') && Spaced(events', dwell) && Timely(events', now)
    {
      var c := committed[i];
      RenewedMore(committed, cands, m, m', now, i);
      CoverEventsStep(committed, cands, now, i);
      if Confirmed(cands, c) {
        TracksCovered(m', events', c.families, now);
        SpacedMore(events', dwell, Covered(c.families, now));
        assert events + (more + [Covered(c.families, now)]) == events' + [Covered(c.families, now)];
        m', events', more := m'.(evidence := m'.evidence[c.families := now]), events' + [Covered(c.families, now)], more + [Covered(c.families, now)];
      }
    }
    assert committed[..|committed|] == committed;
  }

  lemma RenewedNone(cands: seq<Domain>, m: Memory, now: nat)
    ensures Renewed([], cands, m, m, now) && CoverEvents([], cands, now) == []
  {
  }
}
