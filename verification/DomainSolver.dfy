/** `NumaDomainSolver` (src/domain_solver.cpp, include/affinitygraph/core.hpp:438-455) as an
object: propose, commit, discard and the removal of a thread. */
module DomainSolver {
  import opened Lists
  import opened Topology
  import opened Threads
  import opened NodeChoice
  import opened Components
  import opened Domains
  import opened Evidence
  import opened DomainPlan
  import opened Holding
  import opened DomainProposal
  import opened DomainWindow

  // ----- the invariant, part by part -----

  /** The memory is what the history says, and nothing in it is later than the clock. */
  ghost predicate Remembers(m: Memory, events: seq<Event>, dwell: nat, clock: nat) {
    Dated(m) && Tracks(m, events) && Spaced(events, dwell) && Timely(events, clock)
  }

  /** The plan confirmation counts the equal signatures at the end of the history. */
  ghost predicate Repeats(confirmation: nat, pending: Signature, signatures: seq<Signature>) {
    && confirmation == SameRun(signatures)
    && pending == if signatures == [] then [] else signatures[|signatures| - 1]
  }

  /** An outstanding proposal can be committed: its domains can become the committed ones, and
  every placed thread is either planned or released. */
  ghost predicate Committable(hw: Machine, placement: map<int, Mask>, p: Proposal) {
    && AllApart(p.domains) && Peopled(p.domains) && Fitting(hw, p.domains)
    && (forall t :: t in placement ==> t in p.planned || t in p.released)
    && p.released !! p.planned.Keys
    && p.inherited <= p.planned.Keys && (forall t :: t in p.delta ==> t in p.planned && p.delta[t] == p.planned[t])
    && (!p.valid ==> p.planned == map[] && !p.ready) && (!p.ready ==> p.inherited == {} && p.delta == map[])
  }

  lemma RepeatsMore(confirmation: nat, pending: Signature, signatures: seq<Signature>, s: Signature)
    requires Repeats(confirmation, pending, signatures)
    ensures Repeats(if s == pending then confirmation + 1 else 1, s, signatures + [s])
  {
    var more := signatures + [s];
    assert more[..|more| - 1] == signatures && more[|more| - 1] == s;
    if signatures != [] {
      assert more[|more| - 2] == signatures[|signatures| - 1];
    }
  }

  // ----- the transition of a commit -----

  predicate Takes(p: Proposal, placement: map<int, Mask>, committed: set<int>, t: int) {
    || (t in placement && t !in p.released) || t in p.inherited
    || (t in p.delta && (committed == {} || t in committed))
  }

  /** Lines 653-666: the placement after a commit. */
  function Landing(placement: map<int, Mask>, p: Proposal, committed: set<int>): map<int, Mask> {
    (placement - p.released) + map t | t in p.planned && Takes(p, placement, committed, t) :: p.planned[t]
  }

  function IdsOf(domains: seq<Domain>): set<Id> {
    set d | d in domains :: d.families
  }

  /** What a commit does to the memory of one domain (lines 671-677). */
  ghost predicate Adopted(m: Memory, m': Memory, active: set<Id>, d: Domain, now: nat) {
    && NodesOf(m', d.families) == d.nodes
    && Find(m'.changed, d.families) == (if NodesOf(m, d.families) != d.nodes then Some(now) else Find(m.changed, d.families))
    && Find(m'.evidence, d.families) == (if d.families !in active then Some(now) else Find(m.evidence, d.families))
  }

  ghost predicate SameMemory(m: Memory, m': Memory, id: Id) {
    NodesOf(m', id) == NodesOf(m, id) && Find(m'.changed, id) == Find(m.changed, id) && Find(m'.evidence, id) == Find(m.evidence, id)
  }

  /** A commit records the nodes of its domains; a domain that was committed before gets no new
  evidence from it. */
  ghost predicate AllAdopted(m: Memory, m': Memory, active: set<Id>, domains: seq<Domain>, now: nat) {
    && m'.expand == m.expand && m'.shrink == m.shrink
    && (forall i :: 0 <= i < |domains| ==> Adopted(m, m', active, domains[i], now))
    && (forall id :: (forall i :: 0 <= i < |domains| ==> domains[i].families != id) ==> SameMemory(m, m', id))
  }

  function AdoptOne(m: Memory, active: set<Id>, d: Domain, now: nat): Memory {
    m.(changed := if NodesOf(m, d.families) != d.nodes then m.changed[d.families := now] else m.changed,
       evidence := if d.families !in active then m.evidence[d.families := now] else m.evidence,
       nodes := m.nodes[d.families := d.nodes])
  }

  function AdoptEvents(m: Memory, active: set<Id>, d: Domain, now: nat): seq<Event> {
    (if NodesOf(m, d.families) != d.nodes then [Changed(d.families, now)] else [])
    + (if d.families !in active then [Entered(d.families, now)] else [])
  }

  /** What a commit adds to the history: each domain whose nodes change, and each that was not
  committed before. */
  function AdoptLog(m: Memory, active: set<Id>, list: seq<Domain>, now: nat): seq<Event> {
    if list == [] then []
    else AdoptLog(m, active, list[..|list| - 1], now) + AdoptEvents(m, active, list[|list| - 1], now)
  }

  lemma AdoptLogMore(m0: Memory, m: Memory, active: set<Id>, list: seq<Domain>, k: nat, now: nat)
    requires k < |list| && AllApart(list) && Peopled(list) && AllAdopted(m0, m, active, list[..k], now)
    ensures AdoptLog(m0, active, list[..k + 1], now) == AdoptLog(m0, active, list[..k], now) + AdoptEvents(m, active, list[k], now)
  {
    OtherIds(list, k);
    assert list[..k + 1][..k] == list[..k];
    hide AllApart, Peopled, Adopted;
    assert SameMemory(m0, m, list[k].families);
  }

  lemma AdoptTracked(m: Memory, active: set<Id>, d: Domain, now: nat, events: seq<Event>, dwell: nat)
    requires Remembers(m, events, dwell, now)
    ensures Remembers(AdoptOne(m, active, d, now), events + AdoptEvents(m, active, d, now), dwell, now)
  {
    hide Tracks, Spaced;
    var m1, e1 := m, events;
    if NodesOf(m, d.families) != d.nodes {
      TracksChanged(m, events, d.families, now);
      SpacedMore(events, dwell, Changed(d.families, now));
      m1, e1 := m.(changed := m.changed[d.families := now]), events + [Changed(d.families, now)];
    }
    var m2, e2 := m1, e1;
    if d.families !in active {
      TracksEntered(m1, e1, d.families, now);
      SpacedMore(e1, dwell, Entered(d.families, now));
      m2, e2 := m1.(evidence := m1.evidence[d.families := now]), e1 + [Entered(d.families, now)];
    }
    var m3 := m2.(nodes := m2.nodes[d.families := d.nodes]);
    TracksNodes(m2, m3, e2);
    assert m3 == AdoptOne(m, active, d, now);
    assert e2 == events + AdoptEvents(m, active, d, now);
    AdoptDated(m, active, d, now);
  }

  lemma AdoptDated(m: Memory, active: set<Id>, d: Domain, now: nat)
    requires Dated(m)
    ensures Dated(AdoptOne(m, active, d, now))
  {
    var next := AdoptOne(m, active, d, now);
    forall id | NodesOf(next, id) != []
      ensures id in next.changed
    {
      if id != d.families {
        assert NodesOf(m, id) != [];
      }
    }
  }

  lemma TracksNodes(m: Memory, m': Memory, events: seq<Event>)
    requires Tracks(m, events) && m' == m.(nodes := m'.nodes)
    ensures Tracks(m', events)
  {
    hide ExpandStreak, ShrinkStreak, LastChange, LastEvidence;
  }

  lemma AdoptMore(m0: Memory, m: Memory, active: set<Id>, domains: seq<Domain>, k: nat, now: nat)
    requires k < |domains| && AllApart(domains) && Peopled(domains) && AllAdopted(m0, m, active, domains[..k], now)
    ensures AllAdopted(m0, AdoptOne(m, active, domains[k], now), active, domains[..k + 1], now)
  {
    var d, few, more := domains[k], domains[..k], domains[..k + 1];
    OtherIds(domains, k);
    hide AllApart, Peopled, Adopted, SameMemory, AdoptOne;
    var next := AdoptOne(m, active, d, now);
    assert more == few + [d];
    assert SameMemory(m0, m, d.families);
    AdoptSelf(m0, m, active, d, now);
    forall i | 0 <= i < |more|
      ensures Adopted(m0, next, active, more[i], now)
    {
      if i < k {
        assert more[i] == few[i];
        AdoptOther(m0, m, active, d, now, few[i]);
      }
    }
    forall id | forall i :: 0 <= i < |more| ==> more[i].families != id
      ensures SameMemory(m0, next, id)
    {
      assert more[k] == d;
      forall i | 0 <= i < |few|
        ensures few[i].families != id
      {
        assert more[i] == few[i];
      }
      AdoptElsewhere(m0, m, active, d, now, id);
    }
    AdoptCounters(m, active, d, now);
  }

  lemma AdoptCounters(m: Memory, active: set<Id>, d: Domain, now: nat)
    ensures AdoptOne(m, active, d, now).expand == m.expand && AdoptOne(m, active, d, now).shrink == m.shrink
  {
  }

  lemma AdoptSelf(m0: Memory, m: Memory, active: set<Id>, d: Domain, now: nat)
    requires SameMemory(m0, m, d.families)
    ensures Adopted(m0, AdoptOne(m, active, d, now), active, d, now)
  {
  }

  lemma AdoptOther(m0: Memory, m: Memory, active: set<Id>, d: Domain, now: nat, o: Domain)
    requires Adopted(m0, m, active, o, now) && o.families != d.families
    ensures Adopted(m0, AdoptOne(m, active, d, now), active, o, now)
  {
  }

  lemma AdoptElsewhere(m0: Memory, m: Memory, active: set<Id>, d: Domain, now: nat, id: Id)
    requires SameMemory(m0, m, id) && id != d.families
    ensures SameMemory(m0, AdoptOne(m, active, d, now), id)
  {
  }

  lemma OtherIds(domains: seq<Domain>, k: nat)
    requires k < |domains| && AllApart(domains) && Peopled(domains)
    ensures forall i :: 0 <= i < |domains| && i != k ==> domains[i].families != domains[k].families
  {
    forall i | 0 <= i < |domains| && i != k
      ensures domains[i].families != domains[k].families
    {
      ApartEither(domains, i, k);
      var f := domains[i].families[0];
      assert f in domains[i].families;
    }
  }

  lemma AdoptedSettled(hw: Machine, m: Memory, m': Memory, active: set<Id>, domains: seq<Domain>, now: nat)
    requires AllApart(domains) && Peopled(domains) && Fitting(hw, domains) && AllAdopted(m, m', active, domains, now)
    ensures Settled(hw, m', domains)
  {
    hide AllApart, Peopled, Fitting;
  }

  // ----- what a proposal is -----

  /** What a call of `propose` has computed on the way. */
  datatype Window = Window(x: Input, anchors: set<Family>, seeds: seq<Pair>, groups: seq<Id>, t: Trace)

  /** The groups of a window are the connected components of its anchors under the confirmed pairs. */
  ghost predicate GroupedBy(thr: Thresholds, c: Counters, threads: seq<Thread>, w: Window) {
    && Concludes(thr, c, Families(threads), w.seeds, w.anchors) && Partition(w.anchors, w.seeds, w.groups)
  }

  /** A proposal and the plan it comes from.  It is ready only if it is valid and its signature
  was the same in the last `planConfirmations` proposals, or if it only releases threads. */
  ghost predicate Proposes(w: Window, m: Memory, m': Memory, committed: seq<Domain>, placement: map<int, Mask>,
                           signatures: seq<Signature>, p: Proposal) {
    && WindowPlan(w.x, m, m', committed, w.groups, w.t, p.domains, p.valid, p.planned)
    && GroupsApart(w.groups) && GroupsPeopled(w.groups)
    && p.released == placement.Keys - p.planned.Keys
    && (p.ready <==> p.valid && (if p.domains != [] then SameRun(signatures) >= w.x.lim.planConfirmations else p.released != {}))
    && p.inherited == (if p.ready then InheritedOf(w.x, placement, p.planned) else {})
    && p.delta == (if p.ready then Writes(w.x, placement, p.planned) else map[])
  }

  /** A ready proposal with domains had the same (domain, nodes, validity) list in each of the last
  `planConfirmations` proposals. */
  lemma ReadyMeans(w: Window, m: Memory, m': Memory, committed: seq<Domain>, placement: map<int, Mask>,
                   signatures: seq<Signature>, p: Proposal)
    requires Proposes(w, m, m', committed, placement, signatures + [SignatureOf(p.domains)], p)
    ensures p.ready && p.domains != [] ==>
      var all, k := signatures + [SignatureOf(p.domains)], w.x.lim.planConfirmations;
      k <= |all| && forall i :: |all| - k <= i < |all| ==> all[i] == SignatureOf(p.domains)
  {
    hide WindowPlan, GroupsApart, GroupsPeopled, InheritedOf, Writes, SameRun;
    var all := signatures + [SignatureOf(p.domains)];
    assert all[|all| - 1] == SignatureOf(p.domains);
    SameRunMeans(all, w.x.lim.planConfirmations);
  }

  lemma GroupsShape(anchors: set<Family>, seeds: seq<Pair>, groups: seq<Id>)
    requires Partition(anchors, seeds, groups)
    ensures GroupsApart(groups) && GroupsPeopled(groups) && Distinct(groups)
  {
    hide Connected, Increasing;
    forall i, j | 0 <= i < j < |groups|
      ensures Apart(groups[i], groups[j]) && groups[i] != groups[j]
    {
      forall f | f in groups[i]
        ensures f !in groups[j]
      {
        ConnectedSelf(seeds, f);
      }
      var f := groups[i][0];
      assert f in groups[i];
    }
  }

  lemma RemembersParts(m: Memory, events: seq<Event>, dwell: nat, clock: nat)
    requires Remembers(m, events, dwell, clock)
    ensures Dated(m) && Tracks(m, events) && Spaced(events, dwell) && Timely(events, clock)
  {
  }

  lemma SettledParts(hw: Machine, m: Memory, domains: seq<Domain>)
    requires Settled(hw, m, domains)
    ensures AllApart(domains) && Peopled(domains) && Fitting(hw, domains)
  {
  }

  /** Planning changes counters and evidence times, not the nodes on record. */
  lemma WindowMemory(x: Input, m: Memory, m': Memory, committed: seq<Domain>, groups: seq<Id>, t: Trace,
                     domains: seq<Domain>, valid: bool, planned: map<int, Mask>, events: seq<Event>)
    requires WindowPlan(x, m, m', committed, groups, t, domains, valid, planned)
    requires Dated(m) && Settled(x.hw, m, committed)
    requires Tracks(m', events) && Spaced(events, x.lim.dwell) && Timely(events, x.now)
    ensures Remembers(m', events, x.lim.dwell, x.now) && Settled(x.hw, m', committed)
  {
    CandidatesFrame(x, m, t.counted, groups, t.cands, t.es);
    hide Candidates, Holds, HoldAll, Filled, AllSound, AllSmall, Tracks, Spaced, Timely, AllApart, Peopled, Fitting, Confirmed;
    assert m'.nodes == m.nodes && m'.changed == m.changed;
    forall id
      ensures NodesOf(m', id) == NodesOf(m, id)
    {
    }
  }

  lemma CommittableNow(x: Input, placement: map<int, Mask>, p: Proposal)
    requires AllApart(p.domains) && Peopled(p.domains) && Fitting(x.hw, p.domains)
    requires p.released == placement.Keys - p.planned.Keys
    requires p.inherited == (if p.ready then InheritedOf(x, placement, p.planned) else {})
    requires p.delta == (if p.ready then Writes(x, placement, p.planned) else map[])
    requires !p.valid ==> p.planned == map[] && !p.ready
    ensures Committable(x.hw, placement, p)
  {
    hide AllApart, Peopled, Fitting, Inherits;
  }

  lemma ProposesFrom(w: Window, m: Memory, m': Memory, committed: seq<Domain>, placement: map<int, Mask>,
                     signatures: seq<Signature>, confirmation: nat, pending: Signature, p: Proposal)
    requires WindowPlan(w.x, m, m', committed, w.groups, w.t, p.domains, p.valid, p.planned)
    requires GroupsApart(w.groups) && GroupsPeopled(w.groups) && Repeats(confirmation, pending, signatures)
    requires p.released == placement.Keys - p.planned.Keys
    requires p.ready == (p.valid && ((p.domains != [] && confirmation >= w.x.lim.planConfirmations) || (p.domains == [] && p.released != {})))
    requires p.inherited == (if p.ready then InheritedOf(w.x, placement, p.planned) else {})
    requires p.delta == (if p.ready then Writes(w.x, placement, p.planned) else map[])
    ensures Proposes(w, m, m', committed, placement, signatures, p)
  {
    hide WindowPlan, GroupsApart, GroupsPeopled, InheritedOf, Writes, SameRun;
  }

  lemma GroupedFrom(thr: Thresholds, c: Counters, threads: seq<Thread>, w: Window)
    requires Concludes(thr, c, Families(threads), w.seeds, w.anchors) && Partition(w.anchors, w.seeds, w.groups)
    ensures GroupedBy(thr, c, threads, w)
  {
    hide Concludes, Partition;
  }

  /** The solver as a value; `log`, `events` and `signatures` are the history behind the counters. */
  datatype State = State(
    memory: Memory,
    placement: map<int, Mask>,
    domains: seq<Domain>,
    outstanding: Option<Proposal>,
    counters: Counters,
    log: Log,
    events: seq<Event>,
    signatures: seq<Signature>,
    clock: nat)

  /** What a call of `propose` does.  The evidence log goes on with the families and pairs that
  convince in this window, the history with exactly the evaluations and renewals of the window,
  and the proposal is the plan of the groups that the confirmed evidence forms. */
  ghost predicate Drawn(hw: Machine, thr: Thresholds, lim: Limits, s: State, t: State, w: Window, p: Proposal,
                        threads: seq<Thread>, edges: seq<Edge>, allowed: map<int, Mask>, now: nat)
  {
    && t.outstanding == Some(p) && t.clock == now && t.placement == s.placement && t.domains == s.domains
    && w.x == Input(hw, lim, threads, w.x.cross, allowed, now)
    && Proposes(w, s.memory, t.memory, s.domains, s.placement, t.signatures, p)
    && t.signatures == s.signatures + [SignatureOf(p.domains)]
    && t.events == s.events + NewEvents(w.t, s.domains, now) && Remembers(t.memory, t.events, lim.dwell, now)
    && GroupedBy(thr, t.counters, threads, w) && p.planned.Keys <= TidsIn(threads)
    && (exists cohesive, qualified :: Convinces(thr, threads, edges, w.x.cross, cohesive, qualified) && t.log == Logged(s.log, cohesive, qualified))
  }

  lemma DrawnFrom(hw: Machine, thr: Thresholds, lim: Limits, s: State, t: State, w: Window, p: Proposal,
                  threads: seq<Thread>, edges: seq<Edge>, allowed: map<int, Mask>, now: nat)
    requires t.outstanding == Some(p) && t.clock == now && t.placement == s.placement && t.domains == s.domains
    requires w.x == Input(hw, lim, threads, w.x.cross, allowed, now)
    requires Proposes(w, s.memory, t.memory, s.domains, s.placement, t.signatures, p)
    requires t.signatures == s.signatures + [SignatureOf(p.domains)]
    requires t.events == s.events + NewEvents(w.t, s.domains, now) && Remembers(t.memory, t.events, lim.dwell, now)
    requires GroupedBy(thr, t.counters, threads, w) && p.planned.Keys <= TidsIn(threads)
    requires exists cohesive, qualified :: Convinces(thr, threads, edges, w.x.cross, cohesive, qualified) && t.log == Logged(s.log, cohesive, qualified)
    ensures Drawn(hw, thr, lim, s, t, w, p, threads, edges, allowed, now)
  {
    hide Proposes, SignatureOf, NewEvents, GroupedBy, TidsIn, Convinces, Logged;
  }

  /** What a commit of the outstanding proposal does. */
  ghost predicate Landed(s: State, t: State, p: Proposal, now: nat, committed: set<int>) {
    && t.outstanding.None? && t.clock == now && t.domains == p.domains && t.placement == Landing(s.placement, p, committed)
    && AllAdopted(s.memory, t.memory, IdsOf(s.domains), p.domains, now)
    && t.events == s.events + AdoptLog(s.memory, IdsOf(s.domains), p.domains, now)
    && t.signatures == s.signatures && t.log == s.log && t.counters == s.counters
  }

  /** The memory tells the history, and the committed domains can be kept. */
  ghost predicate Sane(hw: Machine, lim: Limits, s: State) {
    lim.Valid() && Remembers(s.memory, s.events, lim.dwell, s.clock) && Settled(hw, s.memory, s.domains)
  }

  class Solver {
    const hw: Machine
    const thr: Thresholds
    const lim: Limits
    var nextId: nat
    var generation: nat
    var counters: Counters
    var confirmation: nat
    var pending: Signature
    var memory: Memory
    var placement: map<int, Mask>
    var domains: seq<Domain>
    var outstanding: Option<Proposal>
    ghost var log: Log
    ghost var events: seq<Event>
    ghost var signatures: seq<Signature>
    ghost var clock: nat

    ghost predicate Valid()
      reads this
    {
      && thr.Valid() && lim.Valid() && thr.grace == lim.planConfirmations
      && Counted(counters, log, thr.grace) && Remembers(memory, events, lim.dwell, clock)
      && Settled(hw, memory, domains) && Repeats(confirmation, pending, signatures)
      && (outstanding.Some? ==> Committable(hw, placement, outstanding.value))
    }

    ghost function S(): State
      reads this
    {
      State(memory, placement, domains, outstanding, counters, log, events, signatures, clock)
    }

    constructor (hw: Machine, thr: Thresholds, lim: Limits)
      requires thr.Valid() && lim.Valid() && thr.grace == lim.planConfirmations
      ensures Valid() && this.hw == hw && this.thr == thr && this.lim == lim
      ensures placement == map[] && domains == [] && outstanding == None && clock == 0
      ensures events == [] && signatures == [] && log == Log([], [])
    {
      this.hw, this.thr, this.lim := hw, thr, lim;
      nextId, generation, confirmation, pending := 1, 0, 0, [];
      counters, memory := Counters(map[], map[], map[]), Memory(map[], map[], map[], map[], map[]);
      placement, domains, outstanding := map[], [], None;
      log, events, signatures, clock := Log([], []), [], [], 0;
    }

    /** Line 692. */
    method RemoveThread(tid: int)
      requires Valid()
      modifies this`placement
      ensures Valid() && S() == old(S()).(placement := old(placement) - {tid})
    {
      hide Counted, Remembers, Settled, Repeats, AllApart, Peopled, Fitting;
      placement := placement - {tid};
    }

    /** Lines 684-686. */
    method Discard(p: Proposal)
      requires Valid()
      modifies this`outstanding
      ensures Valid()
      ensures outstanding == if old(outstanding).Some? && old(outstanding).value.id == p.id then None else old(outstanding)
    {
      if outstanding.Some? && outstanding.value.id == p.id {
        outstanding := None;
      }
    }

    /** Lines 192-644.  With a proposal outstanding it throws. */
    method Propose(threads: seq<Thread>, edges: seq<Edge>, allowed: map<int, Mask>, now: nat)
      returns (r: Result<Proposal>, ghost w: Window)
      requires Valid() && UniqueTids(threads) && clock <= now
      modifies this`nextId, this`counters, this`confirmation, this`pending, this`memory, this`outstanding, this`log, this`events, this`signatures, this`clock
      ensures Valid() && r.Err? == old(outstanding).Some?
      ensures r.Err? ==> outstanding == old(outstanding) && memory == old(memory) && clock == old(clock)
      ensures r.Ok? ==> Drawn(hw, thr, lim, old(S()), S(), w, r.value, threads, edges, allowed, now)
    {
      hide *;
      ghost var s0 := S();
      Fields();
      ValidMeans();
      if outstanding.Some? {
        w := Window(Input(hw, lim, [], map[], map[], now), {}, [], [], Trace([], [], memory, [], []));
        return Err("outstanding NUMA domain proposal"), w;
      }
      nextId := nextId + 1;
      var groups, cross, seeds, anchors := Observe(threads, edges);
      var x := Input(hw, lim, threads, cross, allowed, now);
      ghost var t;
      var list, valid, planned;
      list, valid, planned, t := Draft(x, groups);
      w := Window(x, anchors, seeds, groups, t);
      var p := Close(w, s0, nextId - 1, x, edges, list, valid, planned);
      r := Ok(p);
    }

    /** Lines 586-644: the proposal, which is outstanding from now on. */
    method Close(ghost w: Window, ghost s0: State, id: nat, x: Input, ghost edges: seq<Edge>, list: seq<Domain>, valid: bool, planned: map<int, Mask>)
      returns (p: Proposal)
      requires thr.Valid() && lim.Valid() && thr.grace == lim.planConfirmations && outstanding.None?
      requires w.x == x && x.hw == hw && x.lim == lim && Counted(counters, log, thr.grace) && Repeats(confirmation, pending, signatures)
      requires Remembers(memory, events, lim.dwell, w.x.now) && Settled(hw, memory, domains)
      requires placement == s0.placement && domains == s0.domains && signatures == s0.signatures
      requires events == s0.events + NewEvents(w.t, domains, w.x.now)
      requires WindowPlan(w.x, s0.memory, memory, domains, w.groups, w.t, list, valid, planned) && GroupsApart(w.groups) && GroupsPeopled(w.groups)
      requires AllApart(list) && Peopled(list) && Fitting(hw, list) && (!valid ==> planned == map[]) && planned.Keys <= TidsIn(w.x.threads)
      requires Concludes(thr, counters, Families(w.x.threads), w.seeds, w.anchors) && Partition(w.anchors, w.seeds, w.groups)
      requires exists cohesive, qualified :: Convinces(thr, w.x.threads, edges, w.x.cross, cohesive, qualified) && log == Logged(s0.log, cohesive, qualified)
      modifies this`confirmation, this`pending, this`signatures, this`outstanding, this`clock
      ensures Valid() && Drawn(hw, thr, lim, s0, S(), w, p, w.x.threads, edges, w.x.allowed, w.x.now)
    {
      hide *;
      p := Finish(w, s0.memory, id, x, list, valid, planned);
      GroupedFrom(thr, counters, w.x.threads, w);
      outstanding, clock := Some(p), x.now;
      ValidMeans();
      Fields();
      DrawnFrom(hw, thr, lim, s0, S(), w, p, w.x.threads, edges, w.x.allowed, w.x.now);
    }

    lemma Fields()
      ensures S() == State(memory, placement, domains, outstanding, counters, log, events, signatures, clock)
    {
    }

    lemma ValidSane()
      requires Valid()
      ensures Sane(hw, lim, S())
    {
      hide Counted, Remembers, Settled, Repeats, Committable;
    }

    lemma ValidMeans()
      ensures Valid() <==>
        && thr.Valid() && lim.Valid() && thr.grace == lim.planConfirmations
        && Counted(counters, log, thr.grace) && Remembers(memory, events, lim.dwell, clock)
        && Settled(hw, memory, domains) && Repeats(confirmation, pending, signatures)
        && (outstanding.Some? ==> Committable(hw, placement, outstanding.value))
    {
      hide Counted, Remembers, Settled, Repeats, Committable;
    }

    /** Lines 201-358: the groups of families that the evidence supports. */
    method Observe(threads: seq<Thread>, edges: seq<Edge>)
      returns (groups: seq<Id>, cross: map<Pair, real>, ghost seeds: seq<Pair>, ghost anchors: set<Family>)
      requires thr.Valid() && Counted(counters, log, thr.grace)
      modifies this`counters, this`log
      ensures Counted(counters, log, thr.grace) && Concludes(thr, counters, Families(threads), seeds, anchors)
      ensures exists cohesive, qualified :: Convinces(thr, threads, edges, cross, cohesive, qualified) && log == Logged(old(log), cohesive, qualified)
      ensures Partition(anchors, seeds, groups) && GroupsApart(groups) && GroupsPeopled(groups) && Distinct(groups)
    {
      hide Counted, Concludes, Partition, Convinces, Logged;
      var seeds', anchors';
      counters, seeds', anchors', cross, log := Gather(thr, threads, edges, counters, log);
      groups := GroupAnchors(anchors', seeds');
      GroupsShape(anchors', seeds', groups);
      seeds, anchors := seeds', anchors';
    }

    /** Lines 360-589: the domains and masks of the window. */
    method Draft(x: Input, groups: seq<Id>) returns (list: seq<Domain>, valid: bool, planned: map<int, Mask>, ghost t: Trace)
      requires x.hw == hw && x.lim == lim && lim.Valid() && UniqueTids(x.threads) && clock <= x.now
      requires GroupsApart(groups) && GroupsPeopled(groups) && Distinct(groups)
      requires Remembers(memory, events, lim.dwell, clock) && Settled(hw, memory, domains)
      modifies this`memory, this`events
      ensures Remembers(memory, events, lim.dwell, x.now) && Settled(hw, memory, domains)
      ensures events == old(events) + NewEvents(t, domains, x.now)
      ensures WindowPlan(x, old(memory), memory, domains, groups, t, list, valid, planned)
      ensures AllApart(list) && Peopled(list) && Fitting(hw, list) && (!valid ==> planned == map[]) && planned.Keys <= TidsIn(x.threads)
    {
      hide *;
      RemembersLater(memory, events, lim.dwell, clock, x.now);
      ghost var m0 := memory;
      RemembersParts(memory, events, lim.dwell, x.now);
      SettledParts(hw, memory, domains);
      memory, list, valid, planned, t := PlanWindow(x, memory, domains, groups, events);
      events := events + NewEvents(t, domains, x.now);
      WindowMemory(x, m0, memory, domains, groups, t, list, valid, planned, events);
      ResultShape(x, m0, memory, domains, groups, t, list, valid, planned);
      ResultAlike(x, m0, memory, domains, groups, t, list, valid, planned);
      PlannedPresent(x, m0, memory, domains, groups, t, list, valid, planned);
    }

    /** Lines 586-640: what is released, whether the plan is ready, and what it writes. */
    method Finish(ghost w: Window, ghost m0: Memory, id: nat, x: Input, list: seq<Domain>, valid: bool, planned: map<int, Mask>)
      returns (p: Proposal)
      requires w.x == x && x.hw == hw && x.lim == lim && Repeats(confirmation, pending, signatures)
      requires AllApart(list) && Peopled(list) && Fitting(hw, list) && (!valid ==> planned == map[])
      requires WindowPlan(x, m0, memory, domains, w.groups, w.t, list, valid, planned) && GroupsApart(w.groups) && GroupsPeopled(w.groups)
      modifies this`confirmation, this`pending, this`signatures
      ensures Repeats(confirmation, pending, signatures) && Committable(hw, placement, p)
      ensures Proposes(w, m0, memory, domains, placement, signatures, p) && p.planned == planned
      ensures signatures == old(signatures) + [SignatureOf(p.domains)]
    {
      hide *;
      var released := placement.Keys - planned.Keys;
      var signature := SignatureOf(list);
      RepeatsMore(confirmation, pending, signatures, signature);
      confirmation := if signature == pending then confirmation + 1 else 1;
      pending, signatures := signature, signatures + [signature];
      var ready := valid && ((list != [] && confirmation >= lim.planConfirmations) || (list == [] && released != {}));
      var inherited: set<int>, delta: map<int, Mask> := {}, map[];
      if ready {
        inherited, delta := SplitWrites(x, placement, planned);
      }
      p := Proposal.Proposal(id, list, planned, inherited, delta, released, valid, ready);
      CommittableNow(x, placement, p);
      ProposesFrom(w, m0, memory, domains, placement, signatures, confirmation, pending, p);
    }

    /** Lines 667-679. */
    method Adopt(list: seq<Domain>, now: nat)
      requires Remembers(memory, events, lim.dwell, now) && AllApart(list) && Peopled(list) && Fitting(hw, list)
      modifies this`memory, this`domains, this`events
      ensures Remembers(memory, events, lim.dwell, now) && domains == list && Settled(hw, memory, domains)
      ensures AllAdopted(old(memory), memory, IdsOf(old(domains)), list, now)
      ensures events == old(events) + AdoptLog(old(memory), IdsOf(old(domains)), list, now)
    {
      hide Remembers, AllApart, Peopled, Fitting, AllAdopted, Settled, AdoptOne, AdoptEvents, AdoptLog;
      ghost var m0, more := memory, [];
      var active := IdsOf(domains);
      assert list[..0] == [];
      AdoptNone(m0, active, now);
      for k := 0 to |list|
        invariant Remembers(memory, events, lim.dwell, now) && AllAdopted(m0, memory, active, list[..k], now)
        invariant more == AdoptLog(m0, active, list[..k], now) && events == old(events) + more
        invariant domains == old(domains)
      {
        AdoptTracked(memory, active, list[k], now, events, lim.dwell);
        AdoptMore(m0, memory, active, list, k, now);
        AdoptLogMore(m0, memory, active, list, k, now);
        assert old(events) + (more + AdoptEvents(memory, active, list[k], now)) == events + AdoptEvents(memory, active, list[k], now);
        events, more := events + AdoptEvents(memory, active, list[k], now), more + AdoptEvents(memory, active, list[k], now);
        memory := AdoptOne(memory, active, list[k], now);
      }
      assert list[..|list|] == list;
      AdoptedSettled(hw, m0, memory, active, list, now);
      domains := list;
    }

    /** Lines 646-682.  A commit of anything but the outstanding proposal throws. */
    method Commit(p: Proposal, now: nat, committed: set<int>) returns (ok: bool)
      requires Valid() && clock <= now && (outstanding.Some? && outstanding.value.id == p.id ==> outstanding.value == p)
      modifies this
      ensures Valid() && ok == (old(outstanding) == Some(p))
      ensures ok ==> Landed(old(S()), S(), p, now, committed)
      ensures ok && !p.valid ==> placement == map[]
      ensures !ok ==> S() == old(S())
    {
      hide Counted, Remembers, Settled, Repeats, AllApart, Peopled, Fitting, AllAdopted, Landing, AdoptLog, IdsOf;
      if outstanding.None? || outstanding.value.id != p.id {
        return false;
      }
      assert Committable(hw, placement, p);
      LandsEmpty(hw, placement, p, committed);
      placement := Place(p, committed);
      RemembersLater(memory, events, lim.dwell, clock, now);
      Adopt(p.domains, now);
      generation, outstanding, clock := generation + 1, None, now;
      ok := true;
    }

    /** Lines 653-666. */
    method Place(p: Proposal, committed: set<int>) returns (next: map<int, Mask>)
      ensures next == Landing(placement, p, committed)
    {
      hide Takes;
      next := placement - p.released;
      ghost var before := next;
      var todo := p.planned.Keys;
      ghost var done: set<int> := {};
      while todo != {}
        invariant todo + done == p.planned.Keys && todo !! done
        invariant next == before + map t | t in done && Takes(p, placement, committed, t) :: p.planned[t]
        decreases todo
      {
        Inhabited(todo);
        var t := Least(todo);
        assert t in p.planned.Keys;
        if Takes(p, placement, committed, t) {
          next := next[t := p.planned[t]];
        }
        todo, done := todo - {t}, done + {t};
      }
      assert done == p.planned.Keys;
    }
  }

  lemma AdoptNone(m: Memory, active: set<Id>, now: nat)
    ensures AllAdopted(m, m, active, [], now) && AdoptLog(m, active, [], now) == []
  {
  }

  lemma RemembersLater(m: Memory, events: seq<Event>, dwell: nat, clock: nat, now: nat)
    requires Remembers(m, events, dwell, clock) && clock <= now
    ensures Remembers(m, events, dwell, now)
  {
    hide Tracks, Spaced, Dated;
  }

  lemma LandsEmpty(hw: Machine, placement: map<int, Mask>, p: Proposal, committed: set<int>)
    requires Committable(hw, placement, p)
    ensures !p.valid ==> Landing(placement, p, committed) == map[]
  {
    hide AllApart, Peopled, Fitting;
    if !p.valid {
      forall t
        ensures t !in Landing(placement, p, committed)
      {
      }
    }
  }
}
