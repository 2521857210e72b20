/** One window of the domain planner from its groups to its masks
(src/domain_solver.cpp:360-589), and what can be said about every domain of the result. */
module DomainWindow {
  import opened Lists
  import opened Topology
  import opened Threads
  import opened NodeChoice
  import opened Domains
  import opened DomainPlan
  import opened Holding
  import opened DomainProposal

  /** The stations of a window: the evidence domains and their evaluations, the memory after
  planning them, the domains after holding, and these in order. */
  datatype Trace = Trace(cands: seq<Domain>, es: seq<seq<Event>>, counted: Memory, list: seq<Domain>, sorted: seq<Domain>)

  /** What a window adds to the history: one evaluation for each group that was evaluated, and one
  renewal for each committed domain that a sound candidate covers. */
  function NewEvents(t: Trace, committed: seq<Domain>, now: nat): seq<Event> {
    Gathered(t.es) + CoverEvents(committed, t.cands, now)
  }

  predicate GroupsApart(groups: seq<Id>) {
    forall i, j :: 0 <= i < j < |groups| ==> Apart(groups[i], groups[j])
  }

  predicate GroupsPeopled(groups: seq<Id>) {
    forall i :: 0 <= i < |groups| ==> groups[i] != []
  }

  ghost predicate WindowPlan(x: Input, m: Memory, m': Memory, committed: seq<Domain>, groups: seq<Id>, t: Trace,
                             domains: seq<Domain>, valid: bool, planned: map<int, Mask>) {
    && Candidates(x, m, t.counted, groups, t.cands, t.es) && |t.cands| == |groups|
    && Renewed(committed, t.cands, t.counted, m', x.now)
    && Holds(x, m', committed, t.cands, |committed|, t.list) && t.list == HoldAll(x, m', committed, t.cands)
    && multiset(t.sorted) == multiset(t.list)
    && (if AllSound(t.cands) && AllSmall(x, t.list)
        then Filled(x, t.sorted, domains, valid, planned)
        else domains == t.sorted && !valid && planned == map[])
  }

  lemma CandidatesShape(x: Input, m: Memory, m': Memory, groups: seq<Id>, cands: seq<Domain>, es: seq<seq<Event>>)
    requires Candidates(x, m, m', groups, cands, es) && GroupsApart(groups) && GroupsPeopled(groups)
    ensures AllApart(cands) && Peopled(cands) && Staffed(x.threads, cands)
    ensures AllSound(cands) ==> AllSmall(x, cands)
    ensures forall i :: 0 <= i < |cands| ==> cands[i].mask == MaskFor(x.hw, cands[i].nodes)
  {
    hide Apart, TidsOf, MaskFor, Ask, Fits, Nodes, Starves, Assessed, PlacedOf;
    forall i, j | 0 <= i < j < |cands|
      ensures Apart(cands[i].families, cands[j].families)
    {
      assert Apart(groups[i], groups[j]);
    }
    forall i | 0 <= i < |cands|
      ensures cands[i].families != [] && cands[i].tids == TidsOf(x.threads, cands[i].families) && cands[i].mask == MaskFor(x.hw, cands[i].nodes)
      ensures cands[i].verdict == Sound ==> |cands[i].tids| <= x.lim.maxThreads
    {
      assert Candidate(x, m, PlacedOf(cands[..i]), cands[i], es[i]);
    }
    if AllSound(cands) {
      forall d | d in cands
        ensures |d.tids| <= x.lim.maxThreads
      {
        var i :| 0 <= i < |cands| && cands[i] == d;
      }
    }
  }

  /** The masks of the committed domains are those of their nodes. */
  predicate Fitting(hw: Machine, list: seq<Domain>) {
    forall i :: 0 <= i < |list| ==> list[i].mask == MaskFor(hw, list[i].nodes)
  }

  /** Holding keeps the shape of the list. */
  lemma HeldShape(x: Input, m: Memory, committed: seq<Domain>, cands: seq<Domain>, list: seq<Domain>)
    requires Holds(x, m, committed, cands, |committed|, list)
    requires Peopled(cands) && Staffed(x.threads, cands) && Fitting(x.hw, cands)
    requires Peopled(committed) && Fitting(x.hw, committed)
    ensures AllApart(list) && Peopled(list) && Staffed(x.threads, list) && Fitting(x.hw, list)
  {
    forall i | 0 <= i < |list|
      ensures list[i].families != [] && list[i].tids == TidsOf(x.threads, list[i].families) && list[i].mask == MaskFor(x.hw, list[i].nodes)
    {
      var d := list[i];
      assert d in list;
      hide Deserves, TidsOf, MaskFor, HeldOf, AnyCovers, Apart;
      if d in cands {
        var k :| 0 <= k < |cands| && cands[k] == d;
      } else {
        var j :| 0 <= j < |committed| && Deserves(x, m, committed[j]) && d == HeldOf(x, committed[j]);
        HeldFamilies(x, committed[j]);
      }
    }
  }

  lemma SortedShape(x: Input, a: seq<Domain>, b: seq<Domain>)
    requires AllApart(a) && Peopled(a) && Staffed(x.threads, a) && Fitting(x.hw, a) && multiset(a) == multiset(b)
    ensures AllApart(b) && Peopled(b) && Staffed(x.threads, b) && Fitting(x.hw, b)
    ensures forall d :: d in a <==> d in b
  {
    ApartInAnyOrder(a, b);
    SameElements(a, b);
    hide Apart, TidsOf, MaskFor;
    forall i | 0 <= i < |b|
      ensures b[i].tids == TidsOf(x.threads, b[i].families) && b[i].mask == MaskFor(x.hw, b[i].nodes)
    {
      var d := b[i];
      assert d in b;
      var k :| 0 <= k < |a| && a[k] == d;
    }
  }

  /** Lines 360-589. */
  method PlanWindow(x: Input, m: Memory, committed: seq<Domain>, groups: seq<Id>, ghost events: seq<Event>)
    returns (m': Memory, domains: seq<Domain>, valid: bool, planned: map<int, Mask>, ghost t: Trace)
    requires x.lim.Valid() && UniqueTids(x.threads) && GroupsApart(groups) && GroupsPeopled(groups) && Distinct(groups)
    requires AllApart(committed) && Peopled(committed) && Fitting(x.hw, committed)
    requires Dated(m) && Tracks(m, events) && Spaced(events, x.lim.dwell) && Timely(events, x.now)
    ensures WindowPlan(x, m, m', committed, groups, t, domains, valid, planned)
    ensures var events' := events + NewEvents(t, committed, x.now); Tracks(m', events') && Spaced(events', x.lim.dwell) && Timely(events', x.now)
  {
    hide Gathered, CoverEvents, HoldAll, Tracks, Spaced, Timely, Dated, Candidates, Renewed, Holds, Filled, AllApart, Peopled, Fitting, Staffed, AllSound, AllSmall;
    hide GroupsApart, GroupsPeopled, Distinct, UniqueTids, WindowPlan, Confirmed, TidsApart;
    var cands, m1, es := PlanGroups(x, m, groups, events);
    CandidatesShape(x, m, m1, groups, cands, es);
    m' := Renew(committed, cands, m1, x.now, x.lim.dwell, events + Gathered(es));
    assert events + (Gathered(es) + CoverEvents(committed, cands, x.now)) == events + Gathered(es) + CoverEvents(committed, cands, x.now);
    var list, sound := HoldDomains(x, m', committed, cands);
    FittingIs(x.hw, cands);
    HeldShape(x, m', committed, cands, list);
    var sorted := SortBy(list, IdKey);
    SortedShape(x, list, sorted);
    FamiliesApartTidsApart(x.threads, sorted);
    domains, valid, planned := sorted, false, map[];
    if sound {
      domains, valid, planned := FillMasks(x, sorted);
    }
    t := Trace(cands, es, m1, list, sorted);
    WindowPlanFrom(x, m, m', committed, groups, t, domains, valid, planned);
  }

  lemma FittingIs(hw: Machine, list: seq<Domain>)
    requires forall i :: 0 <= i < |list| ==> list[i].mask == MaskFor(hw, list[i].nodes)
    ensures Fitting(hw, list)
  {
  }

  lemma WindowPlanFrom(x: Input, m: Memory, m': Memory, committed: seq<Domain>, groups: seq<Id>, t: Trace,
                       domains: seq<Domain>, valid: bool, planned: map<int, Mask>)
    requires Candidates(x, m, t.counted, groups, t.cands, t.es) && |t.cands| == |groups|
    requires Renewed(committed, t.cands, t.counted, m', x.now)
    requires Holds(x, m', committed, t.cands, |committed|, t.list) && t.list == HoldAll(x, m', committed, t.cands)
    requires multiset(t.sorted) == multiset(t.list)
    requires if AllSound(t.cands) && AllSmall(x, t.list)
             then Filled(x, t.sorted, domains, valid, planned)
             else domains == t.sorted && !valid && planned == map[]
    ensures WindowPlan(x, m, m', committed, groups, t, domains, valid, planned)
  {
    hide Candidates, Renewed, Holds, HoldAll, Filled, AllSound, AllSmall;
  }

  // ----- what the plan of a window guarantees -----

  /** Two records of a domain that differ in the verdict at most. */
  predicate Alike(d: Domain, e: Domain) {
    d == e.(verdict := d.verdict)
  }

  /** The domains of the result are those after holding; at most one verdict was changed. */
  lemma ResultAlike(x: Input, m: Memory, m': Memory, committed: seq<Domain>, groups: seq<Id>, t: Trace,
                    domains: seq<Domain>, valid: bool, planned: map<int, Mask>)
    requires WindowPlan(x, m, m', committed, groups, t, domains, valid, planned)
    ensures |domains| == |t.sorted| && forall i :: 0 <= i < |domains| ==> Alike(domains[i], t.sorted[i])
    ensures forall i :: 0 <= i < |domains| && domains[i].verdict == Sound ==> domains[i] == t.sorted[i]
    ensures valid ==> domains == t.sorted && Masked(x, t.sorted, |t.sorted|, planned) && AllSound(t.cands) && AllSmall(x, t.list)
    ensures !valid ==> planned == map[]
  {
    hide Candidates, Renewed, Holds, HoldAll, AllSound, AllSmall, Masked, Starves;
    if AllSound(t.cands) && AllSmall(x, t.list) && !valid {
      var k :| MarkedAt(x, t.sorted, domains, k);
    }
  }

  /** The committed domains, as the solver keeps them. */
  ghost predicate Settled(hw: Machine, m: Memory, committed: seq<Domain>) {
    && AllApart(committed) && Peopled(committed) && Fitting(hw, committed)
    && (forall i :: 0 <= i < |committed| ==> NodesOf(m, committed[i].families) == committed[i].nodes)
  }

  lemma TraceShape(x: Input, m: Memory, m': Memory, committed: seq<Domain>, groups: seq<Id>, t: Trace,
                   domains: seq<Domain>, valid: bool, planned: map<int, Mask>)
    requires WindowPlan(x, m, m', committed, groups, t, domains, valid, planned)
    requires GroupsApart(groups) && GroupsPeopled(groups) && Settled(x.hw, m, committed)
    ensures AllApart(t.sorted) && Peopled(t.sorted) && Staffed(x.threads, t.sorted) && Fitting(x.hw, t.sorted)
    ensures forall d :: d in t.list <==> d in t.sorted
  {
    hide Candidates, Renewed, Holds, HoldAll, Filled, AllSound, AllSmall, AllApart, Peopled, Staffed, Fitting;
    CandidatesShape(x, m, t.counted, groups, t.cands, t.es);
    FittingIs(x.hw, t.cands);
    HeldShape(x, m', committed, t.cands, t.list);
    SortedShape(x, t.list, t.sorted);
  }

  /** In every proposal, held domains included, no family and no thread belongs to two domains;
  every domain has the present threads of its families and the CPUs of its nodes. */
  lemma ResultShape(x: Input, m: Memory, m': Memory, committed: seq<Domain>, groups: seq<Id>, t: Trace,
                    domains: seq<Domain>, valid: bool, planned: map<int, Mask>)
    requires WindowPlan(x, m, m', committed, groups, t, domains, valid, planned) && UniqueTids(x.threads)
    requires GroupsApart(groups) && GroupsPeopled(groups) && Settled(x.hw, m, committed)
    ensures AllApart(domains) && Peopled(domains) && Staffed(x.threads, domains) && Fitting(x.hw, domains) && TidsApart(domains)
  {
    TraceShape(x, m, m', committed, groups, t, domains, valid, planned);
    ResultAlike(x, m, m', committed, groups, t, domains, valid, planned);
    AlikeShape(x, t.sorted, domains);
    FamiliesApartTidsApart(x.threads, domains);
  }

  lemma AlikeShape(x: Input, a: seq<Domain>, b: seq<Domain>)
    requires AllApart(a) && Peopled(a) && Staffed(x.threads, a) && Fitting(x.hw, a)
    requires |a| == |b| && forall i :: 0 <= i < |b| ==> Alike(b[i], a[i])
    ensures AllApart(b) && Peopled(b) && Staffed(x.threads, b) && Fitting(x.hw, b)
  {
    hide Apart, TidsOf, MaskFor;
  }

  /** A committed domain whose last complete evidence is younger than the dwell, which has a live
  member and which no candidate covers, is in the proposal with its nodes and its mask. */
  lemma HoldGuarantee(x: Input, m: Memory, m': Memory, committed: seq<Domain>, groups: seq<Id>, t: Trace,
                      domains: seq<Domain>, valid: bool, planned: map<int, Mask>, events': seq<Event>, j: nat)
    requires WindowPlan(x, m, m', committed, groups, t, domains, valid, planned) && Tracks(m', events')
    requires GroupsApart(groups) && GroupsPeopled(groups) && Settled(x.hw, m, committed) && j < |committed|
    requires LastEvidence(events', committed[j].families).Some? && x.now - LastEvidence(events', committed[j].families).value < x.lim.dwell
    requires TidsOf(x.threads, committed[j].families) != {} && !AnyCovers(t.cands, committed[j])
    ensures exists i ::
      && 0 <= i < |domains| && domains[i].families == committed[j].families
      && domains[i].nodes == committed[j].nodes && domains[i].mask == committed[j].mask
  {
    assert Find(m'.evidence, committed[j].families) == LastEvidence(events', committed[j].families);
    assert Deserves(x, m', committed[j]);
    hide Tracks, Candidates, Renewed, HoldAll, Filled, AllSound, AllSmall, AllApart, Peopled, Staffed, Fitting, Deserves, AnyCovers;
    TraceShape(x, m, m', committed, groups, t, domains, valid, planned);
    ResultAlike(x, m, m', committed, groups, t, domains, valid, planned);
    var held := HeldOf(x, committed[j]);
    assert held in t.list;
    HeldFamilies(x, committed[j]);
    var i :| 0 <= i < |t.sorted| && t.sorted[i] == held;
    assert Alike(domains[i], t.sorted[i]);
  }

  /** Every domain of a proposal is an evidence domain of this window or a held one, whose last
  complete evidence is younger than the dwell. */
  lemma DomainOrigin(x: Input, m: Memory, m': Memory, committed: seq<Domain>, groups: seq<Id>, t: Trace,
                     domains: seq<Domain>, valid: bool, planned: map<int, Mask>, events': seq<Event>, i: nat)
    requires WindowPlan(x, m, m', committed, groups, t, domains, valid, planned) && Tracks(m', events')
    requires GroupsApart(groups) && GroupsPeopled(groups) && Settled(x.hw, m, committed) && i < |domains|
    ensures
      || (exists k :: 0 <= k < |t.cands| && Alike(domains[i], t.cands[k]))
      || (exists j :: 0 <= j < |committed| && Alike(domains[i], HeldOf(x, committed[j])) && TidsOf(x.threads, committed[j].families) != {}
            && LastEvidence(events', committed[j].families).Some?
            && x.now - LastEvidence(events', committed[j].families).value < x.lim.dwell)
  {
    hide Candidates, Renewed, HoldAll, Filled, AllSound, AllSmall, AllApart, Peopled, Staffed, Fitting, AnyCovers, TidsOf, HeldOf;
    TraceShape(x, m, m', committed, groups, t, domains, valid, planned);
    ResultAlike(x, m, m', committed, groups, t, domains, valid, planned);
    var d := t.sorted[i];
    assert d in t.sorted;
    assert d in t.list;
    if d in t.cands {
      var k :| 0 <= k < |t.cands| && t.cands[k] == d;
      assert Alike(domains[i], t.cands[k]);
    } else {
      var j :| 0 <= j < |committed| && Deserves(x, m', committed[j]) && d == HeldOf(x, committed[j]);
      assert Find(m'.evidence, committed[j].families) == LastEvidence(events', committed[j].families);
      assert Alike(domains[i], HeldOf(x, committed[j]));
    }
  }

  /** One evaluation of a domain that wants more nodes after a streak that is one short, or fewer. */
  predicate CompletesStreak(lim: Limits, events: seq<Event>, id: Id, e: Event) {
    && e.Evaluated? && e.id == id
    && (|| (e.expand && ExpandStreak(events, id) + 1 >= lim.expandConfirmations)
        || (e.shrink && ShrinkStreak(events, id) + 1 >= lim.shrinkConfirmations))
  }

  /** A sound domain with committed nodes gets other nodes only if this window evaluated it, and the
  evaluation wanted more nodes, as did the latest evaluations of the history before the window, or
  fewer; and those other nodes are the best ones. */
  lemma NodesOnlyAfterStreak(x: Input, m: Memory, m': Memory, committed: seq<Domain>, groups: seq<Id>, t: Trace,
                             domains: seq<Domain>, valid: bool, planned: map<int, Mask>, events: seq<Event>, i: nat)
    returns (k: nat, required: seq<int>)
    requires WindowPlan(x, m, m', committed, groups, t, domains, valid, planned) && Tracks(m, events)
    requires GroupsApart(groups) && GroupsPeopled(groups) && Settled(x.hw, m, committed) && i < |domains|
    requires domains[i].verdict == Sound && NodesOf(m, domains[i].families) != []
    requires domains[i].nodes != NodesOf(m, domains[i].families)
    ensures k < |t.cands| == |t.es| && t.cands[k] == domains[i] && domains[i].nodes == required
    ensures Assessed(x, m, PlacedOf(t.cands[..k]), domains[i], t.es[k], required) && Best(Ask(x, domains[i].families, PlacedOf(t.cands[..k])), required)
    ensures |t.es[k]| == 1 && CompletesStreak(x.lim, events, domains[i].families, t.es[k][0])
  {
    hide *;
    k := SoundIsCandidate(x, m, m', committed, groups, t, domains, valid, planned, i);
    required := SoundRequired(x, m, PlacedOf(t.cands[..k]), t.cands[k], t.es[k]);
    StreakCompleted(x, m, PlacedOf(t.cands[..k]), t.cands[k], t.es[k], required, events);
  }

  lemma StreakCompleted(x: Input, m: Memory, placed: seq<(seq<Family>, seq<int>)>, d: Domain, e: seq<Event>, required: seq<int>, events: seq<Event>)
    requires Assessed(x, m, placed, d, e, required) && Tracks(m, events) && |d.tids| <= x.lim.maxThreads && required != []
    requires NodesOf(m, d.families) != [] && d.nodes != NodesOf(m, d.families)
    ensures |e| == 1 && CompletesStreak(x.lim, events, d.families, e[0]) && d.nodes == required
  {
    hide Ask, Required, WantsMore, WantsFewer, ExpandStreak, ShrinkStreak, LastChange, LastEvidence;
    assert Look(m.expand, d.families) == ExpandStreak(events, d.families) && Look(m.shrink, d.families) == ShrinkStreak(events, d.families);
  }

  /** A sound domain that has left its committed nodes is an evidence domain of this window. */
  lemma SoundIsCandidate(x: Input, m: Memory, m': Memory, committed: seq<Domain>, groups: seq<Id>, t: Trace,
                         domains: seq<Domain>, valid: bool, planned: map<int, Mask>, i: nat) returns (k: nat)
    requires WindowPlan(x, m, m', committed, groups, t, domains, valid, planned)
    requires GroupsApart(groups) && GroupsPeopled(groups) && Settled(x.hw, m, committed) && i < |domains|
    requires domains[i].verdict == Sound && domains[i].nodes != NodesOf(m, domains[i].families)
    ensures k < |t.cands| == |t.es| && t.cands[k] == domains[i] && Candidate(x, m, PlacedOf(t.cands[..k]), t.cands[k], t.es[k])
  {
    hide Filled, AllSound, AllSmall, AllApart, Peopled, Staffed, Fitting, AnyCovers, TidsOf, HeldOf, Deserves, Confirmed, HoldAll;
    hide Candidate, PlacedOf, NodesOf;
    TraceShape(x, m, m', committed, groups, t, domains, valid, planned);
    ResultAlike(x, m, m', committed, groups, t, domains, valid, planned);
    var d := domains[i];
    assert d == t.sorted[i] && d in t.sorted;
    assert d in t.list;
    if d !in t.cands {
      var j :| 0 <= j < |committed| && Deserves(x, m', committed[j]) && d == HeldOf(x, committed[j]);
      HeldFamilies(x, committed[j]);
    }
    k :| 0 <= k < |t.cands| && t.cands[k] == d;
  }

  lemma SoundRequired(x: Input, m: Memory, placed: seq<(seq<Family>, seq<int>)>, d: Domain, e: seq<Event>) returns (required: seq<int>)
    requires Candidate(x, m, placed, d, e) && d.verdict == Sound
    ensures Assessed(x, m, placed, d, e, required) && |d.tids| <= x.lim.maxThreads && required != []
    ensures Best(Ask(x, d.families, placed), required)
  {
    required :| Assessed(x, m, placed, d, e, required);
    AskIs(x, d.families, placed);
    hide Ask, TidsOf, MaskFor, Fits, Nodes, Starves, Best, WantsMore, WantsFewer;
  }

  /** A committed domain with recent evidence and a live member has a domain with all its families
  in the proposal, unless a candidate covered it in its turn and a later hold threw that candidate
  out. */
  lemma ServedInProposal(x: Input, m: Memory, m': Memory, committed: seq<Domain>, groups: seq<Id>, t: Trace,
                         domains: seq<Domain>, valid: bool, planned: map<int, Mask>, j: nat)
    requires WindowPlan(x, m, m', committed, groups, t, domains, valid, planned)
    requires GroupsApart(groups) && GroupsPeopled(groups) && Settled(x.hw, m, committed) && j < |committed| && Deserves(x, m', committed[j])
    ensures AnyCovers(domains, committed[j]) <==> !exists d :: CoverLost(x, m', committed, t.cands, j, d)
  {
    hide *;
    CandidatesApart(x, m, m', committed, groups, t, domains, valid, planned);
    ServedExactly(x, m', committed, t.cands, j);
    TraceShape(x, m, m', committed, groups, t, domains, valid, planned);
    ResultAlike(x, m, m', committed, groups, t, domains, valid, planned);
    SameCovers(t.list, t.sorted, domains, committed[j]);
  }

  lemma CandidatesApart(x: Input, m: Memory, m': Memory, committed: seq<Domain>, groups: seq<Id>, t: Trace,
                        domains: seq<Domain>, valid: bool, planned: map<int, Mask>)
    requires WindowPlan(x, m, m', committed, groups, t, domains, valid, planned)
    requires GroupsApart(groups) && GroupsPeopled(groups) && Settled(x.hw, m, committed)
    ensures AllApart(t.cands) && AllApart(committed) && Peopled(committed) && t.list == HoldAll(x, m', committed, t.cands)
  {
    hide Candidates, Renewed, Holds, Filled, AllSound, AllSmall, AllApart, Peopled, Staffed, Fitting, HoldAll, GroupsApart, GroupsPeopled;
    CandidatesShape(x, m, t.counted, groups, t.cands, t.es);
  }

  lemma SameCovers(list: seq<Domain>, sorted: seq<Domain>, domains: seq<Domain>, c: Domain)
    requires (forall d :: d in list <==> d in sorted) && |domains| == |sorted|
    requires forall i :: 0 <= i < |domains| ==> Alike(domains[i], sorted[i])
    ensures AnyCovers(domains, c) <==> AnyCovers(list, c)
  {
    if AnyCovers(domains, c) {
      var i :| 0 <= i < |domains| && Covers(domains[i], c);
      assert Covers(sorted[i], c);
      var d := sorted[i];
      assert d in sorted;
      InResult(list, c, d);
    }
    if AnyCovers(list, c) {
      var i :| 0 <= i < |list| && Covers(list[i], c);
      var d := list[i];
      assert d in list;
      var k :| 0 <= k < |sorted| && sorted[k] == d;
      assert Covers(domains[k], c);
    }
  }

  /** In a valid proposal the planned threads are exactly the present threads of the families of
  the sound domains; each gets a nonempty set of CPUs of the domain's nodes that it is allowed
  to use, and no sound domain has too many threads. */
  lemma PlannedExactly(x: Input, m: Memory, m': Memory, committed: seq<Domain>, groups: seq<Id>, t: Trace,
                       domains: seq<Domain>, planned: map<int, Mask>)
    requires WindowPlan(x, m, m', committed, groups, t, domains, true, planned)
    requires GroupsApart(groups) && GroupsPeopled(groups) && Settled(x.hw, m, committed)
    ensures forall tid :: tid in planned <==>
      exists i :: 0 <= i < |domains| && domains[i].verdict == Sound && tid in TidsOf(x.threads, domains[i].families)
    ensures forall i, tid :: 0 <= i < |domains| && domains[i].verdict == Sound && tid in TidsOf(x.threads, domains[i].families) ==>
      && tid in planned && planned[tid] != {} && planned[tid] <= MaskFor(x.hw, domains[i].nodes)
      && (tid in x.allowed ==> planned[tid] <= x.allowed[tid])
    ensures forall i :: 0 <= i < |domains| ==> |domains[i].tids| <= x.lim.maxThreads
  {
    hide *;
    TraceShape(x, m, m', committed, groups, t, domains, true, planned);
    ResultAlike(x, m, m', committed, groups, t, domains, true, planned);
    MaskedExactly(x, domains, planned);
    SmallOnes(x, t.list, domains);
  }

  lemma SmallOnes(x: Input, list: seq<Domain>, sorted: seq<Domain>)
    requires AllSmall(x, list) && forall d :: d in list <==> d in sorted
    ensures forall i :: 0 <= i < |sorted| ==> |sorted[i].tids| <= x.lim.maxThreads
  {
    forall i | 0 <= i < |sorted|
      ensures |sorted[i].tids| <= x.lim.maxThreads
    {
      var d := sorted[i];
      assert d in sorted;
    }
  }

  lemma MaskedExactly(x: Input, list: seq<Domain>, planned: map<int, Mask>)
    requires Masked(x, list, |list|, planned) && Staffed(x.threads, list) && Fitting(x.hw, list)
    ensures forall tid :: tid in planned <==>
      exists i :: 0 <= i < |list| && list[i].verdict == Sound && tid in TidsOf(x.threads, list[i].families)
    ensures forall i, tid :: 0 <= i < |list| && list[i].verdict == Sound && tid in TidsOf(x.threads, list[i].families) ==>
      && tid in planned && planned[tid] != {} && planned[tid] <= MaskFor(x.hw, list[i].nodes)
      && (tid in x.allowed ==> planned[tid] <= x.allowed[tid])
  {
    hide TidsOf, MaskFor;
    forall tid | tid in planned
      ensures exists i :: 0 <= i < |list| && list[i].verdict == Sound && tid in TidsOf(x.threads, list[i].families)
    {
      var i :| 0 <= i < |list| && list[i].verdict == Sound && tid in list[i].tids;
    }
    forall i, tid | 0 <= i < |list| && list[i].verdict == Sound && tid in TidsOf(x.threads, list[i].families)
      ensures tid in planned && planned[tid] != {} && planned[tid] <= MaskFor(x.hw, list[i].nodes)
      ensures tid in x.allowed ==> planned[tid] <= x.allowed[tid]
    {
      assert tid in list[i].tids;
    }
  }

  /** Only present threads are planned. */
  lemma PlannedPresent(x: Input, m: Memory, m': Memory, committed: seq<Domain>, groups: seq<Id>, t: Trace,
                       domains: seq<Domain>, valid: bool, planned: map<int, Mask>)
    requires WindowPlan(x, m, m', committed, groups, t, domains, valid, planned)
    requires GroupsApart(groups) && GroupsPeopled(groups) && Settled(x.hw, m, committed)
    ensures planned.Keys <= TidsIn(x.threads)
  {
    ResultAlike(x, m, m', committed, groups, t, domains, valid, planned);
    if valid {
      PlannedExactly(x, m, m', committed, groups, t, domains, planned);
      hide WindowPlan, GroupsApart, GroupsPeopled, Settled, AllSound, AllSmall, Masked;
      forall tid | tid in planned.Keys
        ensures tid in TidsIn(x.threads)
      {
        var i :| 0 <= i < |domains| && domains[i].verdict == Sound && tid in TidsOf(x.threads, domains[i].families);
      }
    }
  }

  /** An invalid proposal plans nothing. */
  lemma InvalidPlansNothing(x: Input, m: Memory, m': Memory, committed: seq<Domain>, groups: seq<Id>, t: Trace,
                            domains: seq<Domain>, planned: map<int, Mask>)
    requires WindowPlan(x, m, m', committed, groups, t, domains, false, planned)
    ensures planned == map[]
    ensures exists i ::
      || (0 <= i < |t.cands| && t.cands[i].verdict != Sound)
      || (0 <= i < |t.list| && |t.list[i].tids| > x.lim.maxThreads)
      || (0 <= i < |t.sorted| && t.sorted[i].verdict == Sound && Starves(x, t.sorted[i].mask, t.sorted[i].tids))
  {
    ResultAlike(x, m, m', committed, groups, t, domains, false, planned);
    hide Candidates, Renewed, Holds, HoldAll, Masked, Starves;
    if AllSound(t.cands) && AllSmall(x, t.list) {
      var k :| MarkedAt(x, t.sorted, domains, k);
    } else if AllSound(t.cands) {
      var d :| d in t.list && |d.tids| > x.lim.maxThreads;
      var k :| 0 <= k < |t.list| && t.list[k] == d;
    }
  }
}
