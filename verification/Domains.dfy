/** Placement domains (src/domain_solver.cpp:360-465): what is remembered about a domain, the
history that memory stands for, and the plan of one evidence domain. */
module Domains {
  import opened Lists
  import opened Topology
  import opened Threads
  import opened NodeChoice

  type Mask = set<int>

  /** A domain is known by its families in ascending order. */
  type Id = seq<Family>

  datatype Limits = Limits(
    planConfirmations: nat,
    maxThreads: nat,
    ratio: real,
    expandRatio: real,
    expandConfirmations: nat,
    shrinkRatio: real,
    shrinkConfirmations: nat,
    dwell: nat)
  {
    predicate Valid() {
      planConfirmations >= 1 && maxThreads >= 1 && ratio > 0.0 && expandConfirmations >= 1 && shrinkConfirmations >= 1
    }
  }

  datatype Verdict = Sound | TooManyThreads | NoCapacity | EmptyMask

  datatype Domain = Domain(families: Id, tids: set<int>, nodes: seq<int>, mask: Mask, demand: real, verdict: Verdict)

  /** One window's input to the domain planner. */
  datatype Input = Input(
    hw: Machine,
    lim: Limits,
    threads: seq<Thread>,
    cross: map<Pair, real>,
    allowed: map<int, Mask>,
    now: nat)

  // ----- the history behind the memory -----

  /** `expand_confirmations_`, `shrink_confirmations_`, `last_changed_ns_`,
  `last_confirmed_domain_evidence_ns_` and `domain_nodes_`. */
  datatype Memory = Memory(
    expand: map<Id, nat>,
    shrink: map<Id, nat>,
    changed: map<Id, nat>,
    evidence: map<Id, nat>,
    nodes: map<Id, seq<int>>)

  datatype Event =
    | Evaluated(id: Id, expand: bool, shrink: bool, time: nat)
    | Changed(id: Id, time: nat)
    | Covered(id: Id, time: nat)
    | Entered(id: Id, time: nat)

  function Look(m: map<Id, nat>, id: Id): nat {
    if id in m then m[id] else 0
  }

  function Find(m: map<Id, nat>, id: Id): Option<nat> {
    if id in m then Some(m[id]) else None
  }

  function NodesOf(m: Memory, id: Id): seq<int> {
    if id in m.nodes then m.nodes[id] else []
  }

  /** In how many of the latest evaluations of a domain in a row it wanted more nodes. */
  function ExpandStreak(events: seq<Event>, id: Id): nat {
    if events == [] then 0
    else
      var e, rest := events[|events| - 1], events[..|events| - 1];
      if e.Evaluated? && e.id == id then (if e.expand then 1 + ExpandStreak(rest, id) else 0)
      else ExpandStreak(rest, id)
  }

  function ShrinkStreak(events: seq<Event>, id: Id): nat {
    if events == [] then 0
    else
      var e, rest := events[|events| - 1], events[..|events| - 1];
      if e.Evaluated? && e.id == id then (if e.shrink then 1 + ShrinkStreak(rest, id) else 0)
      else ShrinkStreak(rest, id)
  }

  /** When the committed nodes of a domain last changed. */
  function LastChange(events: seq<Event>, id: Id): Option<nat> {
    if events == [] then None
    else
      var e := events[|events| - 1];
      if e.Changed? && e.id == id then Some(e.time) else LastChange(events[..|events| - 1], id)
  }

  /** When a domain last had complete evidence: a valid candidate covered it, or it entered. */
  function LastEvidence(events: seq<Event>, id: Id): Option<nat> {
    if events == [] then None
    else
      var e := events[|events| - 1];
      if (e.Covered? || e.Entered?) && e.id == id then Some(e.time) else LastEvidence(events[..|events| - 1], id)
  }

  /** A shrink was wanted only once the dwell since the last change of nodes was over. */
  ghost predicate Spaced(events: seq<Event>, dwell: nat) {
    forall i :: 0 <= i < |events| && events[i].Evaluated? && events[i].shrink ==>
      LastChange(events[..i], events[i].id).Some? && events[i].time - LastChange(events[..i], events[i].id).value >= dwell
  }

  /** The memory is what the history says. */
  ghost predicate Tracks(m: Memory, events: seq<Event>) {
    && (forall id :: Look(m.expand, id) == ExpandStreak(events, id))
    && (forall id :: Look(m.shrink, id) == ShrinkStreak(events, id))
    && (forall id :: Find(m.changed, id) == LastChange(events, id))
    && (forall id :: Find(m.evidence, id) == LastEvidence(events, id))
  }

  ghost predicate Timely(events: seq<Event>, clock: nat) {
    forall i :: 0 <= i < |events| ==> events[i].time <= clock
  }

  lemma OneMoreEvent(events: seq<Event>, e: Event, id: Id)
    ensures ExpandStreak(events + [e], id) ==
      if e.Evaluated? && e.id == id then (if e.expand then 1 + ExpandStreak(events, id) else 0) else ExpandStreak(events, id)
    ensures ShrinkStreak(events + [e], id) ==
      if e.Evaluated? && e.id == id then (if e.shrink then 1 + ShrinkStreak(events, id) else 0) else ShrinkStreak(events, id)
    ensures LastChange(events + [e], id) == if e.Changed? && e.id == id then Some(e.time) else LastChange(events, id)
    ensures LastEvidence(events + [e], id) ==
      if (e.Covered? || e.Entered?) && e.id == id then Some(e.time) else LastEvidence(events, id)
  {
    var longer := events + [e];
    assert longer[|longer| - 1] == e && longer[..|longer| - 1] == events;
  }

  /** One more event, and the same step of the memory. */
  lemma TracksStep(m: Memory, m': Memory, events: seq<Event>, e: Event)
    requires Tracks(m, events)
    requires forall id ::
      Look(m'.expand, id) == if e.Evaluated? && e.id == id then (if e.expand then 1 + Look(m.expand, id) else 0) else Look(m.expand, id)
    requires forall id ::
      Look(m'.shrink, id) == if e.Evaluated? && e.id == id then (if e.shrink then 1 + Look(m.shrink, id) else 0) else Look(m.shrink, id)
    requires forall id :: Find(m'.changed, id) == if e.Changed? && e.id == id then Some(e.time) else Find(m.changed, id)
    requires forall id ::
      Find(m'.evidence, id) == if (e.Covered? || e.Entered?) && e.id == id then Some(e.time) else Find(m.evidence, id)
    ensures Tracks(m', events + [e])
  {
    hide ExpandStreak, ShrinkStreak, LastChange, LastEvidence, Look, Find;
    forall id
      ensures Look(m'.expand, id) == ExpandStreak(events + [e], id) && Look(m'.shrink, id) == ShrinkStreak(events + [e], id)
      ensures Find(m'.changed, id) == LastChange(events + [e], id) && Find(m'.evidence, id) == LastEvidence(events + [e], id)
    {
      OneMoreEvent(events, e, id);
    }
  }

  lemma TracksEvaluated(m: Memory, events: seq<Event>, id: Id, expand: bool, shrink: bool, now: nat)
    requires Tracks(m, events)
    ensures Tracks(m.(expand := m.expand[id := if expand then Look(m.expand, id) + 1 else 0],
                      shrink := m.shrink[id := if shrink then Look(m.shrink, id) + 1 else 0]),
                   events + [Evaluated(id, expand, shrink, now)])
  {
    hide Tracks;
    TracksStep(m, m.(expand := m.expand[id := if expand then Look(m.expand, id) + 1 else 0],
                     shrink := m.shrink[id := if shrink then Look(m.shrink, id) + 1 else 0]),
               events, Evaluated(id, expand, shrink, now));
  }

  lemma TracksCovered(m: Memory, events: seq<Event>, id: Id, now: nat)
    requires Tracks(m, events)
    ensures Tracks(m.(evidence := m.evidence[id := now]), events + [Covered(id, now)])
  {
    hide Tracks;
    TracksStep(m, m.(evidence := m.evidence[id := now]), events, Covered(id, now));
  }

  lemma TracksEntered(m: Memory, events: seq<Event>, id: Id, now: nat)
    requires Tracks(m, events)
    ensures Tracks(m.(evidence := m.evidence[id := now]), events + [Entered(id, now)])
  {
    hide Tracks;
    TracksStep(m, m.(evidence := m.evidence[id := now]), events, Entered(id, now));
  }

  lemma TracksChanged(m: Memory, events: seq<Event>, id: Id, now: nat)
    requires Tracks(m, events)
    ensures Tracks(m.(changed := m.changed[id := now]), events + [Changed(id, now)])
  {
    hide Tracks;
    TracksStep(m, m.(changed := m.changed[id := now]), events, Changed(id, now));
  }

  lemma SpacedMore(events: seq<Event>, dwell: nat, e: Event)
    requires Spaced(events, dwell)
    requires e.Evaluated? && e.shrink ==> LastChange(events, e.id).Some? && e.time - LastChange(events, e.id).value >= dwell
    ensures Spaced(events + [e], dwell)
  {
    var longer := events + [e];
    forall i | 0 <= i < |longer| && longer[i].Evaluated? && longer[i].shrink
      ensures LastChange(longer[..i], longer[i].id).Some? && longer[i].time - LastChange(longer[..i], longer[i].id).value >= dwell
    {
      if i < |events| {
        assert longer[..i] == events[..i] && longer[i] == events[i];
      } else {
        assert longer[..i] == events;
      }
    }
  }

  /** The latest evaluation in a streak of evaluations that wanted fewer nodes: it came at least a
  dwell after the last change of nodes, and the streak before it is one shorter. */
  lemma {:induction false} ShrinkStreakMeans(events: seq<Event>, dwell: nat, id: Id) returns (i: nat)
    requires Spaced(events, dwell) && ShrinkStreak(events, id) > 0
    ensures i < |events| && events[i].Evaluated? && events[i].id == id && events[i].shrink
    ensures LastChange(events[..i], id).Some? && events[i].time - LastChange(events[..i], id).value >= dwell
    ensures ShrinkStreak(events[..i], id) == ShrinkStreak(events, id) - 1
    ensures forall j :: i < j < |events| ==> !(events[j].Evaluated? && events[j].id == id)
  {
    var n := |events| - 1;
    var e, rest := events[n], events[..n];
    if e.Evaluated? && e.id == id {
      i := n;
    } else {
      forall k | 0 <= k < n
        ensures rest[..k] == events[..k]
      {
      }
      i := ShrinkStreakMeans(rest, dwell, id);
      assert rest[..i] == events[..i];
    }
  }

  /** The evaluations in a streak of evaluations that wanted more nodes are the latest ones of the
  domain: the streak before the last of them is one shorter, and none came after it. */
  lemma {:induction false} ExpandStreakMeans(events: seq<Event>, id: Id) returns (i: nat)
    requires ExpandStreak(events, id) > 0
    ensures i < |events| && events[i].Evaluated? && events[i].id == id && events[i].expand
    ensures ExpandStreak(events[..i], id) == ExpandStreak(events, id) - 1
    ensures forall j :: i < j < |events| ==> !(events[j].Evaluated? && events[j].id == id)
  {
    var n := |events| - 1;
    var e, rest := events[n], events[..n];
    if e.Evaluated? && e.id == id {
      i := n;
    } else {
      i := ExpandStreakMeans(rest, id);
      assert rest[..i] == events[..i];
    }
  }

  // ----- one evidence domain -----

  /** The threads of one family, in input order. */
  function InFamily(threads: seq<Thread>, f: Family): (r: seq<Thread>)
    ensures forall th :: th in r <==> th in threads && th.group == f
  {
    if threads == [] then []
    else
      var n := |threads| - 1;
      assert threads == threads[..n] + [threads[n]];
      InFamily(threads[..n], f) + if threads[n].group == f then [threads[n]] else []
  }

  /** The members of a domain, family by family. */
  function MembersOf(threads: seq<Thread>, families: Id): (r: seq<Thread>)
    ensures forall th :: th in r <==> th in threads && th.group in families
  {
    if families == [] then []
    else
      var n := |families| - 1;
      assert families == families[..n] + [families[n]];
      MembersOf(threads, families[..n]) + InFamily(threads, families[n])
  }

  function TidsOf(threads: seq<Thread>, families: Id): set<int> {
    set th | th in threads && th.group in families :: th.id.tid
  }

  function TotalDemand(members: seq<Thread>): real {
    if members == [] then 0.0 else TotalDemand(members[..|members| - 1]) + members[|members| - 1].demand
  }

  /** Lines 448-451 and 568-571: the mask a thread of the domain gets. */
  function Target(x: Input, mask: Mask, tid: int): Mask {
    if tid in x.allowed then mask * x.allowed[tid] else mask
  }

  function Ask(x: Input, families: Id, placed: seq<(seq<Family>, seq<int>)>): Question {
    var members := MembersOf(x.threads, families);
    Question(x.hw, TotalDemand(members), x.lim.ratio, members, x.threads, placed, families, x.cross)
  }

  /** The best nodes for a domain, if any have the capacity. */
  ghost predicate Best(q: Question, nodes: seq<int>) {
    && NodeList(q.hw, nodes) && Fits(q, nodes)
    && (forall c :: NodeList(q.hw, c) && Fits(q, c) && c != nodes ==> Improves(Costs(q, nodes), Costs(q, c)))
  }

  /** The outcome of the search for nodes: the best list, or nothing if no list has the capacity. */
  ghost predicate Required(q: Question, nodes: seq<int>) {
    if Fits(q, Nodes(q.hw)) then Best(q, nodes) && nodes != [] else nodes == []
  }

  function Utilization(x: Input, demand: real, nodes: seq<int>): real {
    var cpus := |MaskFor(x.hw, nodes)|;
    if cpus == 0 then 1.0 else demand / cpus as real
  }

  /** Lines 399-404. */
  predicate WantsMore(x: Input, demand: real, previous: seq<int>, required: seq<int>) {
    |required| > |previous| && Utilization(x, demand, previous) > x.lim.expandRatio
  }

  predicate WantsFewer(x: Input, m: Memory, id: Id, demand: real, previous: seq<int>, required: seq<int>) {
    |required| < |previous| && Utilization(x, demand, previous) < x.lim.shrinkRatio
    && x.now - Look(m.changed, id) >= x.lim.dwell
  }

  /** Lines 391-429: the nodes a domain gets.  A domain with committed nodes keeps them until it
  has wanted more, or fewer, in enough evaluations in a row. */
  ghost predicate Decides(x: Input, m: Memory, m': Memory, id: Id, demand: real, required: seq<int>, evaluated: bool, nodes: seq<int>, e: seq<Event>) {
    var previous := NodesOf(m, id);
    if !evaluated || previous == [] then m' == m && e == [] && nodes == required
    else
      var expand, shrink := WantsMore(x, demand, previous, required), WantsFewer(x, m, id, demand, previous, required);
      && e == [Evaluated(id, expand, shrink, x.now)]
      && m' == m.(expand := m.expand[id := if expand then Look(m.expand, id) + 1 else 0],
                  shrink := m.shrink[id := if shrink then Look(m.shrink, id) + 1 else 0])
      && nodes == (if Look(m'.expand, id) >= x.lim.expandConfirmations || Look(m'.shrink, id) >= x.lim.shrinkConfirmations
                   then required else previous)
  }

  method Decide(x: Input, m: Memory, id: Id, demand: real, required: seq<int>, evaluated: bool)
    returns (nodes: seq<int>, m': Memory, e: seq<Event>)
    requires x.lim.Valid()
    ensures Decides(x, m, m', id, demand, required, evaluated, nodes, e)
  {
    hide WantsMore, WantsFewer;
    nodes, m', e := required, m, [];
    var previous := NodesOf(m, id);
    if previous != [] && evaluated {
      var expand := WantsMore(x, demand, previous, required);
      var shrink := WantsFewer(x, m, id, demand, previous, required);
      m' := m'.(expand := m.expand[id := if expand then Look(m.expand, id) + 1 else 0]);
      m' := m'.(shrink := m.shrink[id := if shrink then Look(m.shrink, id) + 1 else 0]);
      e := [Evaluated(id, expand, shrink, x.now)];
      var expandConfirmed := expand && Look(m'.expand, id) >= x.lim.expandConfirmations;
      var shrinkConfirmed := shrink && Look(m'.shrink, id) >= x.lim.shrinkConfirmations;
      if !expandConfirmed && !shrinkConfirmed {
        nodes := previous;
      }
    }
  }

  /** Lines 447-458: some member would be left without a CPU. */
  predicate Starves(x: Input, mask: Mask, tids: set<int>) {
    exists t :: t in tids && Target(x, mask, t) == {}
  }

  method AnyStarves(x: Input, mask: Mask, members: seq<Thread>) returns (r: bool)
    ensures r <==> exists th :: th in members && Target(x, mask, th.id.tid) == {}
  {
    for i := 0 to |members|
      invariant forall j :: 0 <= j < i ==> Target(x, mask, members[j].id.tid) != {}
    {
      if Target(x, mask, members[i].id.tid) == {} {
        assert members[i] in members;
        return true;
      }
    }
    r := false;
  }

  method SumDemand(members: seq<Thread>) returns (r: real)
    ensures r == TotalDemand(members)
  {
    r := 0.0;
    for i := 0 to |members|
      invariant r == TotalDemand(members[..i])
    {
      assert members[..i + 1][..i] == members[..i];
      r := r + members[i].demand;
    }
    assert members[..|members|] == members;
  }

  /** What the plan of one evidence domain is: exactly when it is sound, which threads it has,
  which nodes and which CPUs. */
  ghost predicate Plans(x: Input, m: Memory, m': Memory, families: Id, placed: seq<(seq<Family>, seq<int>)>, d: Domain, e: seq<Event>) {
    var q := Ask(x, families, placed);
    && d.families == families && d.tids == TidsOf(x.threads, families) && d.mask == MaskFor(x.hw, d.nodes) && d.demand == q.demand
    && (exists required ::
          && Required(q, required)
          && Decides(x, m, m', families, q.demand, required, |d.tids| <= x.lim.maxThreads && required != [], d.nodes, e))
    && (d.verdict == Sound <==>
          |d.tids| <= x.lim.maxThreads && Fits(q, Nodes(x.hw)) && !Starves(x, d.mask, d.tids))
  }

  lemma RequiredIff(q: Question, nodes: seq<int>)
    requires Required(q, nodes)
    ensures nodes != [] <==> Fits(q, Nodes(q.hw))
  {
    hide Fits, Best, Nodes;
  }

  /** Lines 362-465 for one group of families. */
  method PlanDomain(x: Input, m: Memory, families: Id, placed: seq<(seq<Family>, seq<int>)>)
    returns (d: Domain, m': Memory, e: seq<Event>)
    requires x.lim.Valid()
    ensures Plans(x, m, m', families, placed, d, e)
  {
    hide Decides, Fits, Best, Nodes, MaskFor, TidsOf, Plans, Starves;
    var members := MembersOf(x.threads, families);
    var tids := TidsOf(x.threads, families);
    var demand := SumDemand(members);
    var verdict := Sound;
    if |tids| > x.lim.maxThreads {
      verdict := TooManyThreads;
    }
    var q := Ask(x, families, placed);
    var choice := ChooseNodes(q);
    var required := if choice.Some? then choice.value.nodes else [];
    if choice.Some? {
      BestIs(q, choice.value);
    }
    if required == [] {
      verdict := NoCapacity;
    }
    var nodes;
    nodes, m', e := Decide(x, m, families, demand, required, verdict == Sound);
    var mask := MaskFor(x.hw, nodes);
    var starves := AnyStarves(x, mask, members);
    StarvesIs(x, mask, families);
    if starves {
      verdict := EmptyMask;
    }
    d := Domain(families, tids, nodes, mask, demand, verdict);
    PlansFrom(x, m, m', families, placed, d, e, required);
  }

  lemma PlansFrom(x: Input, m: Memory, m': Memory, families: Id, placed: seq<(seq<Family>, seq<int>)>, d: Domain, e: seq<Event>,
                  required: seq<int>)
    requires var q := Ask(x, families, placed);
      && d.families == families && d.tids == TidsOf(x.threads, families) && d.mask == MaskFor(x.hw, d.nodes) && d.demand == q.demand
      && Required(q, required)
      && Decides(x, m, m', families, q.demand, required, |d.tids| <= x.lim.maxThreads && required != [], d.nodes, e)
      && (d.verdict == Sound <==> |d.tids| <= x.lim.maxThreads && required != [] && !Starves(x, d.mask, d.tids))
    ensures Plans(x, m, m', families, placed, d, e)
  {
    RequiredIff(Ask(x, families, placed), required);
    hide Decides, Fits, Best, Nodes, MaskFor, TidsOf, Starves, Required, MembersOf;
  }

  lemma BestIs(q: Question, c: Choice)
    requires NodeList(q.hw, c.nodes) && Fits(q, c.nodes) && c == Costs(q, c.nodes)
    requires forall o :: NodeList(q.hw, o) && Fits(q, o) && o != c.nodes ==> Improves(c, Costs(q, o))
    ensures Best(q, c.nodes) && c.nodes != []
  {
    hide Fits, Costs, Improves, Nodes, Increasing;
  }

  lemma StarvesIs(x: Input, mask: Mask, families: Id)
    ensures Starves(x, mask, TidsOf(x.threads, families)) <==>
      exists th :: th in MembersOf(x.threads, families) && Target(x, mask, th.id.tid) == {}
  {
    hide MembersOf;
    if Starves(x, mask, TidsOf(x.threads, families)) {
      var t :| t in TidsOf(x.threads, families) && Target(x, mask, t) == {};
      var th :| th in x.threads && th.group in families && th.id.tid == t;
      assert th in MembersOf(x.threads, families);
    }
    if exists th :: th in MembersOf(x.threads, families) && Target(x, mask, th.id.tid) == {} {
      var th :| th in MembersOf(x.threads, families) && Target(x, mask, th.id.tid) == {};
      assert th.id.tid in TidsOf(x.threads, families);
    }
  }
}
