/** The optimizing phase (src/solver.cpp:1156-1557): single moves and pair swaps that are
worth making, and the budgeted batch that is accepted from them. */
module Optimizer {
  import opened Lists
  import opened Counting
  import opened Threads

  datatype Action = Action(id: Identity, from: int, to: int, initial: bool, emergency: bool)

  /** One move, or the two moves of a swap. */
  datatype Potential = Potential(actions: seq<Action>, emergency: bool, gain: real)

  /** The string key of `action_key`, as a structured value. */
  type Key = seq<(Identity, int, int)>

  function KeyOf(actions: seq<Action>): Key {
    seq(|actions|, i requires 0 <= i < |actions| => (actions[i].id, actions[i].from, actions[i].to))
  }

  /** The machine and the thread demands during one evaluation. */
  datatype Board = Board(
    cpus: seq<int>,
    nodes: seq<int>,
    size: map<int, int>,
    nodeOf: map<int, int>,
    slot: int,
    tids: seq<int>,
    demand: map<int, real>)
  {
    predicate Valid() {
      && Distinct(cpus) && Distinct(nodes) && Distinct(tids)
      && (forall c :: c in cpus ==> c in nodeOf && nodeOf[c] in nodes)
    }

    function Node(c: int): int {
      if c in nodeOf then nodeOf[c] else -1
    }

    function Demand(t: int): real {
      GetReal(demand, t)
    }
  }

  // ----- totals of a placement -----

  function NodeAt(b: Board, at: map<int, int>): map<int, int> {
    map t | t in at :: b.Node(at[t])
  }

  function Excess(count: int, slot: int): int {
    MaxInt(0, count - slot)
  }

  function SlotViolation(b: Board, at: map<int, int>): int {
    Sum(b.cpus, c => Excess(Count(at, c), b.slot))
  }

  function OverloadOf(b: Board, at: map<int, int>): real {
    SumReal(b.cpus, c => Max(0.0, Load(b.tids, b.demand, at, c) - 1.0))
    + SumReal(b.nodes, n => Max(0.0, Load(b.tids, b.demand, NodeAt(b, at), n) - Get(b.size, n) as real))
  }

  /** Running tables of a batch: CPU loads, node loads and CPU populations. */
  datatype Tables = Tables(cpu: map<int, real>, node: map<int, real>, count: map<int, int>)

  function TableViolation(b: Board, x: Tables): int {
    Sum(b.cpus, c => Excess(Get(x.count, c), b.slot))
  }

  function TableOverload(b: Board, x: Tables): real {
    SumReal(b.cpus, c => Max(0.0, GetReal(x.cpu, c) - 1.0))
    + SumReal(b.nodes, n => Max(0.0, GetReal(x.node, n) - Get(b.size, n) as real))
  }

  function Balance(b: Board, load: map<int, real>): real {
    SumReal(b.nodes, n => Squared(GetReal(load, n), Get(b.size, n)))
  }

  function Squared(load: real, size: int): real {
    load * load / MaxInt(size, 1) as real
  }

  function Utilization(b: Board, load: map<int, real>, n: int): real {
    GetReal(load, n) / MaxInt(Get(b.size, n), 1) as real
  }

  function HighestUse(b: Board, nodes: seq<int>, load: map<int, real>): real {
    if nodes == [] then 0.0 else Max(Utilization(b, load, nodes[0]), HighestUse(b, nodes[1..], load))
  }

  function LowestUse(b: Board, nodes: seq<int>, load: map<int, real>): real
    requires nodes != []
  {
    var here := Utilization(b, load, nodes[0]);
    if |nodes| == 1 then here
    else
      var rest := LowestUse(b, nodes[1..], load);
      if rest < here then rest else here
  }

  function Span(b: Board, load: map<int, real>): real {
    if b.nodes == [] then 0.0 else HighestUse(b, b.nodes, load) - LowestUse(b, b.nodes, load)
  }

  /** The tables are exactly the loads and populations of the placement. */
  predicate Projects(b: Board, at: map<int, int>, x: Tables) {
    && (forall c :: c in b.cpus ==> GetReal(x.cpu, c) == Load(b.tids, b.demand, at, c))
    && (forall c :: c in b.cpus ==> Get(x.count, c) == Count(at, c))
    && (forall n :: n in b.nodes ==> GetReal(x.node, n) == Load(b.tids, b.demand, NodeAt(b, at), n))
  }

  lemma ProjectedTotals(b: Board, at: map<int, int>, x: Tables)
    requires Projects(b, at, x)
    ensures TableViolation(b, x) == SlotViolation(b, at)
    ensures TableOverload(b, x) == OverloadOf(b, at)
  {
    SumEq(b.cpus, c => Excess(Get(x.count, c), b.slot), c => Excess(Count(at, c), b.slot));
    SumRealEq(b.cpus, c => Max(0.0, GetReal(x.cpu, c) - 1.0), c => Max(0.0, Load(b.tids, b.demand, at, c) - 1.0));
    SumRealEq(b.nodes, n => Max(0.0, GetReal(x.node, n) - Get(b.size, n) as real),
              n => Max(0.0, Load(b.tids, b.demand, NodeAt(b, at), n) - Get(b.size, n) as real));
  }

  // ----- moving one thread in the tables (lines 1516-1528) -----

  function Shift(m: map<int, real>, from: int, to: int, d: real): map<int, real> {
    var left := m[from := GetReal(m, from) - d];
    left[to := GetReal(left, to) + d]
  }

  function ShiftCount(m: map<int, int>, from: int, to: int): map<int, int> {
    var left := m[from := Get(m, from) - 1];
    left[to := Get(left, to) + 1]
  }

  function MoveTables(b: Board, x: Tables, a: Action): Tables {
    var d := b.Demand(a.id.tid);
    Tables(Shift(x.cpu, a.from, a.to, d),
           if b.Node(a.from) != b.Node(a.to) then Shift(x.node, b.Node(a.from), b.Node(a.to), d) else x.node,
           ShiftCount(x.count, a.from, a.to))
  }

  lemma NodeAtSet(b: Board, at: map<int, int>, t: int, to: int)
    ensures NodeAt(b, at[t := to]) == NodeAt(b, at)[t := b.Node(to)]
  {
  }

  lemma MoveProjects(b: Board, at: map<int, int>, x: Tables, a: Action)
    requires b.Valid() && Projects(b, at, x)
    requires a.id.tid in b.tids && a.id.tid in at && at[a.id.tid] == a.from
    ensures Projects(b, at[a.id.tid := a.to], MoveTables(b, x, a))
  {
    var t, next := a.id.tid, MoveTables(b, x, a);
    forall c | c in b.cpus
      ensures GetReal(next.cpu, c) == Load(b.tids, b.demand, at[t := a.to], c)
      ensures Get(next.count, c) == Count(at[t := a.to], c)
    {
      LoadSet(b.tids, b.demand, at, t, a.to, c);
      CountSet(at, t, a.to, c);
    }
    NodeAtSet(b, at, t, a.to);
    forall n | n in b.nodes
      ensures GetReal(next.node, n) == Load(b.tids, b.demand, NodeAt(b, at[t := a.to]), n)
    {
      LoadSet(b.tids, b.demand, NodeAt(b, at), t, b.Node(a.to), n);
    }
  }

  // ----- placements after a list of actions -----

  function After(at: map<int, int>, actions: seq<Action>): map<int, int>
    decreases |actions|
  {
    if actions == [] then at
    else After(at[actions[0].id.tid := actions[0].to], actions[1..])
  }

  function TidsOf(actions: seq<Action>): set<int> {
    set a | a in actions :: a.id.tid
  }

  /** No thread twice; every action starts where the thread is and ends on a CPU of the machine. */
  predicate WellFormed(b: Board, at: map<int, int>, actions: seq<Action>) {
    && (forall i, j :: 0 <= i < j < |actions| ==> actions[i].id.tid != actions[j].id.tid)
    && (forall a :: a in actions ==>
          a.id.tid in b.tids && a.id.tid in at && at[a.id.tid] == a.from && a.from in b.cpus && a.to in b.cpus)
  }

  lemma {:induction false} AfterAppend(at: map<int, int>, xs: seq<Action>, ys: seq<Action>)
    ensures After(at, xs + ys) == After(After(at, xs), ys)
    decreases |xs|
  {
    if xs == [] {
      assert xs + ys == ys;
    } else {
      assert (xs + ys)[1..] == xs[1..] + ys;
      AfterAppend(at[xs[0].id.tid := xs[0].to], xs[1..], ys);
    }
  }

  lemma AfterOne(at: map<int, int>, rest: seq<Action>, a: Action)
    ensures After(at, rest + [a]) == After(at, rest)[a.id.tid := a.to]
  {
    AfterAppend(at, rest, [a]);
    assert [a][1..] == [];
  }

  lemma TidsOfOne(rest: seq<Action>, a: Action)
    ensures TidsOf(rest + [a]) == TidsOf(rest) + {a.id.tid}
  {
    assert TidsOf([a]) == {a.id.tid};
    TidsOfAppend(rest, [a]);
  }

  lemma {:induction false} AfterElsewhere(at: map<int, int>, xs: seq<Action>, t: int)
    requires t !in TidsOf(xs)
    ensures t in After(at, xs) <==> t in at
    ensures t in at ==> After(at, xs)[t] == at[t]
    decreases |xs|
  {
    if xs != [] {
      assert xs[0] in xs;
      assert xs[0].id.tid in TidsOf(xs);
      forall a | a in xs[1..]
        ensures a.id.tid in TidsOf(xs)
      {
        assert a in xs;
      }
      AfterElsewhere(at[xs[0].id.tid := xs[0].to], xs[1..], t);
    }
  }

  lemma {:induction false} AfterKeys(at: map<int, int>, xs: seq<Action>)
    requires forall a :: a in xs ==> a.id.tid in at
    ensures After(at, xs).Keys == at.Keys
    decreases |xs|
  {
    if xs != [] {
      assert xs[0] in xs;
      var next := at[xs[0].id.tid := xs[0].to];
      assert next.Keys == at.Keys;
      forall a | a in xs[1..]
        ensures a.id.tid in next
      {
        assert a in xs;
      }
      AfterKeys(next, xs[1..]);
    }
  }

  lemma {:induction false} AfterAt(at: map<int, int>, xs: seq<Action>, a: Action)
    requires forall i, j :: 0 <= i < j < |xs| ==> xs[i].id.tid != xs[j].id.tid
    requires a in xs
    ensures a.id.tid in After(at, xs) && After(at, xs)[a.id.tid] == a.to
    decreases |xs|
  {
    var next := at[xs[0].id.tid := xs[0].to];
    if a == xs[0] {
      forall b | b in xs[1..]
        ensures b.id.tid != a.id.tid
      {
        var j :| 0 <= j < |xs[1..]| && xs[1..][j] == b;
        assert xs[j + 1] == b;
      }
      AfterElsewhere(next, xs[1..], a.id.tid);
    } else {
      assert a in xs[1..];
      AfterAt(next, xs[1..], a);
    }
  }

  /** Lines 1513-1528: the tables once a potential is carried out. */
  method MoveAll(b: Board, ghost at: map<int, int>, x: Tables, actions: seq<Action>) returns (y: Tables)
    requires b.Valid() && Projects(b, at, x) && WellFormed(b, at, actions)
    ensures Projects(b, After(at, actions), y)
  {
    y := x;
    for i := 0 to |actions|
      invariant Projects(b, After(at, actions[..i]), y)
    {
      hide Projects;
      var a := actions[i];
      ghost var mid := After(at, actions[..i]);
      assert actions[..i + 1] == actions[..i] + [a];
      AfterOne(at, actions[..i], a);
      NotMovedYet(at, actions, i);
      assert a in actions;
      MoveProjects(b, mid, y, a);
      y := MoveTables(b, y, a);
    }
    assert actions[..|actions|] == actions;
  }

  lemma NotMovedYet(at: map<int, int>, actions: seq<Action>, i: nat)
    requires i < |actions| && actions[i].id.tid in at
    requires forall i, j :: 0 <= i < j < |actions| ==> actions[i].id.tid != actions[j].id.tid
    ensures var t := actions[i].id.tid; t in After(at, actions[..i]) && After(at, actions[..i])[t] == at[t]
  {
    var t := actions[i].id.tid;
    assert t !in TidsOf(actions[..i]) by {
      forall a | a in actions[..i]
        ensures a.id.tid != t
      {
        var j :| 0 <= j < |actions[..i]| && actions[..i][j] == a;
        assert actions[j] == a;
      }
    }
    AfterElsewhere(at, actions[..i], t);
  }

  // ----- candidate moves (lines 1302-1401) -----

  /** What one evaluation of the optimizing phase sees. */
  datatype Scene = Scene(
    b: Board,
    at: map<int, int>,
    ids: map<int, Identity>,
    edges: seq<Edge>,
    latency: (int, int) -> real,
    x: Tables,
    cooling: set<int>,
    minGain: real,
    threshold: real)
  {
    ghost predicate Valid() {
      && b.Valid()
      && (forall t :: t in at ==> t in b.tids && t in ids && ids[t].tid == t && at[t] in b.cpus)
    }
  }

  function CpuAt(at: map<int, int>, overrides: map<int, int>, t: int): int {
    if t in overrides then overrides[t] else Get(at, t)
  }

  function IncidentCost(s: Scene, edges: seq<Edge>, tid: int, cpu: int, overrides: map<int, int>): real {
    if edges == [] then 0.0
    else
      var e, rest := edges[0], IncidentCost(s, edges[1..], tid, cpu, overrides);
      if Touches(e, tid) && Other(e, tid) in s.at
      then e.score * s.latency(cpu, CpuAt(s.at, overrides, Other(e, tid))) + rest
      else rest
  }

  function CpuOver(s: Scene, c: int, extra: real): real {
    Max(0.0, GetReal(s.x.cpu, c) + extra - 1.0)
  }

  function NodeOver(s: Scene, n: int, extra: real): real {
    Max(0.0, GetReal(s.x.node, n) + extra - Get(s.b.size, n) as real)
  }

  function SlotsBefore(s: Scene, source: int, cpu: int): int {
    Excess(Get(s.x.count, source), s.b.slot) + Excess(Get(s.x.count, cpu), s.b.slot)
  }

  function SlotsAfter(s: Scene, source: int, cpu: int): int {
    Excess(Get(s.x.count, source) - 1, s.b.slot) + Excess(Get(s.x.count, cpu) + 1, s.b.slot)
  }

  function OverloadBefore(s: Scene, source: int, cpu: int): real {
    var sn, tn := s.b.Node(source), s.b.Node(cpu);
    CpuOver(s, source, 0.0) + CpuOver(s, cpu, 0.0)
    + (if sn >= 0 then NodeOver(s, sn, 0.0) else 0.0)
    + (if tn != sn then NodeOver(s, tn, 0.0) else 0.0)
  }

  function OverloadAfter(s: Scene, source: int, cpu: int, d: real): real {
    var sn, tn := s.b.Node(source), s.b.Node(cpu);
    CpuOver(s, source, -d) + CpuOver(s, cpu, d)
    + (if sn >= 0 && sn != tn then NodeOver(s, sn, -d) + NodeOver(s, tn, d) else 0.0)
  }

  function BalanceAfter(s: Scene, source: int, cpu: int, d: real): real {
    var sn, tn := s.b.Node(source), s.b.Node(cpu);
    Balance(s.b, if sn >= 0 && sn != tn then Shift(s.x.node, sn, tn, d) else s.x.node)
  }

  /** Lines 1363-1372. */
  predicate Urgent(s: Scene, tid: int, source: int, cpu: int, current: real, relation: real) {
    var sn, tn, d := s.b.Node(source), s.b.Node(cpu), s.b.Demand(tid);
    || sn < 0
    || SlotsAfter(s, source, cpu) < SlotsBefore(s, source, cpu)
    || OverloadAfter(s, source, cpu, d) + EPS < OverloadBefore(s, source, cpu)
    || (&& sn != tn
        && Utilization(s.b, s.x.node, sn) > Utilization(s.b, s.x.node, tn) + s.threshold
        && BalanceAfter(s, source, cpu, d) + EPS < Balance(s.b, s.x.node)
        && relation <= current + EPS)
  }

  datatype Verdict = Skip | Consider(emergency: bool, gain: real, objective: seq<real>)

  /** Lines 1333-1385 for one thread and one CPU. */
  function Judge(s: Scene, tid: int, cpu: int): Verdict {
    var source := Get(s.at, tid);
    var d := s.b.Demand(tid);
    var current := IncidentCost(s, s.edges, tid, source, map[]);
    var relation := IncidentCost(s, s.edges, tid, cpu, map[]);
    var urgent := Urgent(s, tid, source, cpu, current, relation);
    var gain := current - relation;
    if cpu == source then Skip
    else if tid in s.cooling && !urgent then Skip
    else if SlotsAfter(s, source, cpu) > SlotsBefore(s, source, cpu) then Skip
    else if !urgent && OverloadAfter(s, source, cpu, d) > OverloadBefore(s, source, cpu) + EPS then Skip
    else if !urgent && gain + EPS < s.minGain * Max(current, 0.000000001) then Skip
    else
      Consider(urgent, gain,
               [ Bit(!urgent), SlotsAfter(s, source, cpu) as real, OverloadAfter(s, source, cpu, d), relation,
                 BalanceAfter(s, source, cpu, d), s.latency(source, cpu), cpu as real ])
  }

  /** A potential that may enter the batch: well formed, and calm unless it is an emergency. */
  ghost predicate Admissible(s: Scene, p: Potential) {
    && p.actions != []
    && WellFormed(s.b, s.at, p.actions)
    && (forall a :: a in p.actions ==> a.id.tid in s.ids && s.ids[a.id.tid] == a.id && !a.initial && a.emergency == p.emergency)
    && (!p.emergency ==> forall a :: a in p.actions ==> a.id.tid !in s.cooling)
  }

  /** A single move of a thread, to the CPU with the least objective among those to consider. */
  ghost predicate IsBestMove(s: Scene, tid: int, p: Potential) {
    && |p.actions| == 1 && p.actions[0].id.tid == tid
    && var w := Judge(s, tid, p.actions[0].to);
       && w.Consider? && w.emergency == p.emergency && w.gain == p.gain
       && (forall c :: c in s.b.cpus && Judge(s, tid, c).Consider? ==> !LexLess(Judge(s, tid, c).objective, w.objective))
  }

  method BestMove(s: Scene, tid: int) returns (p: Option<Potential>)
    requires s.Valid() && tid in s.at
    ensures p.Some? ==> Admissible(s, p.value)
    ensures p.Some? ==> IsBestMove(s, tid, p.value)
    ensures p.None? ==> forall c :: c in s.b.cpus ==> Judge(s, tid, c).Skip?
  {
    hide Judge;
    var best := Skip;
    var bestCpu := -1;
    for i := 0 to |s.b.cpus|
      invariant best.Skip? ==> forall j :: 0 <= j < i ==> Judge(s, tid, s.b.cpus[j]).Skip?
      invariant best.Consider? ==> bestCpu in s.b.cpus && Judge(s, tid, bestCpu) == best
      invariant best.Consider? ==> forall j :: 0 <= j < i && Judge(s, tid, s.b.cpus[j]).Consider? ==>
        !LexLess(Judge(s, tid, s.b.cpus[j]).objective, best.objective)
    {
      var verdict := Judge(s, tid, s.b.cpus[i]);
      if verdict.Consider? && (best.Skip? || LexLess(verdict.objective, best.objective)) {
        BetterStays(s, tid, i, best, verdict);
        best, bestCpu := verdict, s.b.cpus[i];
      }
    }
    if best.Skip? {
      return None;
    }
    JudgeCalm(s, tid, bestCpu);
    var a := Action(s.ids[tid], s.at[tid], bestCpu, false, best.emergency);
    p := Some(Potential([a], best.emergency, best.gain));
    assert Judge(s, tid, p.value.actions[0].to) == best;
  }

  lemma JudgeCalm(s: Scene, tid: int, cpu: int)
    ensures Judge(s, tid, cpu).Consider? ==> Judge(s, tid, cpu).emergency || tid !in s.cooling
  {
    hide Urgent, SlotsAfter, SlotsBefore, OverloadAfter, OverloadBefore, BalanceAfter;
  }

  lemma BetterStays(s: Scene, tid: int, i: nat, best: Verdict, verdict: Verdict)
    requires i < |s.b.cpus| && verdict == Judge(s, tid, s.b.cpus[i]) && verdict.Consider?
    requires best.Skip? ==> forall j :: 0 <= j < i ==> Judge(s, tid, s.b.cpus[j]).Skip?
    requires best.Consider? ==> LexLess(verdict.objective, best.objective)
    requires best.Consider? ==> forall j :: 0 <= j < i && Judge(s, tid, s.b.cpus[j]).Consider? ==>
      !LexLess(Judge(s, tid, s.b.cpus[j]).objective, best.objective)
    ensures forall j :: 0 <= j <= i && Judge(s, tid, s.b.cpus[j]).Consider? ==>
      !LexLess(Judge(s, tid, s.b.cpus[j]).objective, verdict.objective)
  {
    hide Judge;
    forall j | 0 <= j <= i && Judge(s, tid, s.b.cpus[j]).Consider?
      ensures !LexLess(Judge(s, tid, s.b.cpus[j]).objective, verdict.objective)
    {
      var o := Judge(s, tid, s.b.cpus[j]).objective;
      LexIrreflexive(verdict.objective);
      if LexLess(o, verdict.objective) && best.Consider? {
        LexTransitive(o, verdict.objective, best.objective);
      }
    }
  }

  // ----- candidate swaps (lines 1403-1457) -----

  function CostBefore(s: Scene, first: int, second: int): real {
    IncidentCost(s, s.edges, first, Get(s.at, first), map[]) + IncidentCost(s, s.edges, second, Get(s.at, second), map[])
  }

  function CostAfter(s: Scene, first: int, second: int): real {
    var a, b := Get(s.at, first), Get(s.at, second);
    var overrides := map[first := b, second := a];
    IncidentCost(s, s.edges, first, b, overrides) + IncidentCost(s, s.edges, second, a, overrides)
  }

  predicate SwapWorth(s: Scene, first: int, second: int) {
    var a, b := Get(s.at, first), Get(s.at, second);
    var df, ds := s.b.Demand(first), s.b.Demand(second);
    var na, nb := s.b.Node(a), s.b.Node(b);
    && a != b
    && first !in s.cooling && second !in s.cooling
    && CostBefore(s, first, second) - CostAfter(s, first, second) + EPS
         >= s.minGain * Max(CostBefore(s, first, second), 0.000000001)
    && CpuOver(s, a, ds - df) + CpuOver(s, b, df - ds) <= CpuOver(s, a, 0.0) + CpuOver(s, b, 0.0) + EPS
    && (na != nb ==> NodeOver(s, na, ds - df) + NodeOver(s, nb, df - ds) <= NodeOver(s, na, 0.0) + NodeOver(s, nb, 0.0) + EPS)
  }

  function SwapOf(s: Scene, first: int, second: int): Potential
    requires first in s.at && second in s.at && first in s.ids && second in s.ids
  {
    Potential([ Action(s.ids[first], s.at[first], s.at[second], false, false),
                Action(s.ids[second], s.at[second], s.at[first], false, false) ],
              false, CostBefore(s, first, second) - CostAfter(s, first, second))
  }

  lemma SwapAdmissible(s: Scene, first: int, second: int)
    requires s.Valid() && first in s.at && second in s.at && first != second && SwapWorth(s, first, second)
    ensures Admissible(s, SwapOf(s, first, second))
  {
    hide CostBefore, CostAfter, CpuOver, NodeOver;
  }

  /** A potential of the evaluation: the best move of a ranked thread, or a worthwhile swap. */
  ghost predicate Offered(s: Scene, ranked: seq<int>, p: Potential) {
    || (exists i :: 0 <= i < |ranked| && IsBestMove(s, ranked[i], p))
    || (exists i, j :: 0 <= i < j < |ranked| && IsSwap(s, ranked[i], ranked[j], p))
  }

  ghost predicate IsSwap(s: Scene, first: int, second: int, p: Potential) {
    && first in s.at && second in s.at && first in s.ids && second in s.ids
    && SwapWorth(s, first, second) && p == SwapOf(s, first, second)
  }

  /** The potentials of an evaluation that examines these threads. */
  ghost predicate IsPotential(s: Scene, ranked: seq<int>, p: Potential) {
    Admissible(s, p) && Offered(s, ranked, p)
  }

  lemma JudgedCpu(s: Scene, tid: int, cpu: int)
    requires Judge(s, tid, cpu).Consider?
    ensures |Judge(s, tid, cpu).objective| == 7 && Judge(s, tid, cpu).objective[6] == cpu as real
  {
    hide Urgent, SlotsAfter, SlotsBefore, OverloadAfter, OverloadBefore, BalanceAfter, IncidentCost;
  }

  /** A thread has at most one best move: the last part of the objective tells CPUs apart. */
  lemma BestMoveUnique(s: Scene, tid: int, p: Potential, q: Potential)
    requires Admissible(s, p) && Admissible(s, q) && IsBestMove(s, tid, p) && IsBestMove(s, tid, q)
    ensures p == q
  {
    var a, b := p.actions[0], q.actions[0];
    assert a in p.actions && b in q.actions;
    JudgedCpu(s, tid, a.to);
    JudgedCpu(s, tid, b.to);
    hide Judge;
    LexTotal(Judge(s, tid, a.to).objective, Judge(s, tid, b.to).objective);
    assert a.to == b.to;
    assert p.actions == [a] && q.actions == [b];
  }

  lemma BestMoveGoes(s: Scene, tid: int, p: Potential)
    requires Admissible(s, p) && IsBestMove(s, tid, p)
    ensures !NowhereToGo(s, tid)
  {
    hide Judge;
    assert p.actions[0] in p.actions;
  }

  /** Whatever is offered is among the potentials, once each ranked thread has its best move and
  each worthwhile pair its swap there. */
  lemma OfferedListed(s: Scene, ranked: seq<int>, potentials: seq<Potential>, p: Potential)
    requires IsPotential(s, ranked, p) && forall q :: q in potentials ==> Admissible(s, q)
    requires forall i :: 0 <= i < |ranked| ==> NowhereToGo(s, ranked[i]) || exists q :: q in potentials && IsBestMove(s, ranked[i], q)
    requires forall i, j :: 0 <= i < j < |ranked| && SwapWorth(s, ranked[i], ranked[j]) ==>
      IsSwapIn(s, ranked[i], ranked[j], potentials)
    ensures p in potentials
  {
    hide Admissible, IsBestMove, NowhereToGo, SwapWorth, SwapOf;
    if i :| 0 <= i < |ranked| && IsBestMove(s, ranked[i], p) {
      BestMoveGoes(s, ranked[i], p);
      var q :| q in potentials && IsBestMove(s, ranked[i], q);
      BestMoveUnique(s, ranked[i], p, q);
    } else {
      var i, j :| 0 <= i < j < |ranked| && IsSwap(s, ranked[i], ranked[j], p);
    }
  }

  ghost predicate NowhereToGo(s: Scene, tid: int) {
    forall c :: c in s.b.cpus ==> Judge(s, tid, c).Skip?
  }

  /** The moves of lines 1302-1402: one for each ranked thread that has a CPU to consider. */
  method CandidateMoves(s: Scene, ranked: seq<int>) returns (potentials: seq<Potential>)
    requires s.Valid() && forall t :: t in ranked ==> t in s.at
    ensures forall p :: p in potentials ==> Admissible(s, p) && Offered(s, ranked, p)
    ensures forall i :: 0 <= i < |ranked| ==> NowhereToGo(s, ranked[i]) || exists p :: p in potentials && IsBestMove(s, ranked[i], p)
  {
    hide Admissible, IsBestMove, IsSwap, Judge, Scene.Valid;
    potentials := [];
    for i := 0 to |ranked|
      invariant forall p :: p in potentials ==> Admissible(s, p) && Offered(s, ranked, p)
      invariant forall j :: 0 <= j < i ==> NowhereToGo(s, ranked[j]) || exists p :: p in potentials && IsBestMove(s, ranked[j], p)
    {
      assert ranked[i] in ranked;
      var p := BestMove(s, ranked[i]);
      if p.Some? {
        ghost var before := potentials;
        potentials := potentials + [p.value];
        assert p.value in potentials;
        forall j | 0 <= j < i
          ensures NowhereToGo(s, ranked[j]) || exists q :: q in potentials && IsBestMove(s, ranked[j], q)
        {
          if !NowhereToGo(s, ranked[j]) {
            var q :| q in before && IsBestMove(s, ranked[j], q);
            assert q in potentials;
          }
        }
      }
    }
  }

  /** The worthwhile swaps of one ranked thread with later ones. */
  method SwapsWith(s: Scene, ranked: seq<int>, i: nat) returns (swaps: seq<Potential>)
    requires s.Valid() && Distinct(ranked) && i < |ranked| && forall t :: t in ranked ==> t in s.at
    ensures forall p :: p in swaps ==> Admissible(s, p) && Offered(s, ranked, p)
    ensures forall j :: i < j < |ranked| && SwapWorth(s, ranked[i], ranked[j]) ==> IsSwapIn(s, ranked[i], ranked[j], swaps)
  {
    hide Admissible, SwapWorth, IsBestMove, SwapOf;
    swaps := [];
    for j := i + 1 to |ranked|
      invariant forall p :: p in swaps ==> Admissible(s, p) && Offered(s, ranked, p)
      invariant forall k :: i < k < j && SwapWorth(s, ranked[i], ranked[k]) ==> IsSwapIn(s, ranked[i], ranked[k], swaps)
    {
      assert ranked[i] in ranked && ranked[j] in ranked;
      if SwapWorth(s, ranked[i], ranked[j]) {
        SwapAdmissible(s, ranked[i], ranked[j]);
        assert IsSwap(s, ranked[i], ranked[j], SwapOf(s, ranked[i], ranked[j]));
        swaps := swaps + [SwapOf(s, ranked[i], ranked[j])];
      }
    }
  }

  /** All moves, then all swaps (lines 1403-1457): exactly the potentials of the ranked threads. */
  method Candidates(s: Scene, ranked: seq<int>) returns (potentials: seq<Potential>)
    requires s.Valid() && Distinct(ranked) && forall t :: t in ranked ==> t in s.at
    ensures forall p :: p in potentials <==> IsPotential(s, ranked, p)
  {
    hide Admissible, SwapWorth, IsBestMove, NowhereToGo, Offered, SwapOf, Scene.Valid;
    var moves := CandidateMoves(s, ranked);
    potentials := moves;
    for i := 0 to |ranked|
      invariant forall p :: p in moves ==> p in potentials
      invariant forall p :: p in potentials ==> Admissible(s, p) && Offered(s, ranked, p)
      invariant forall x, y :: 0 <= x < i && x < y < |ranked| && SwapWorth(s, ranked[x], ranked[y]) ==>
        IsSwapIn(s, ranked[x], ranked[y], potentials)
    {
      var swaps := SwapsWith(s, ranked, i);
      ghost var before := potentials;
      potentials := potentials + swaps;
      forall x, y | 0 <= x <= i && x < y < |ranked| && SwapWorth(s, ranked[x], ranked[y])
        ensures IsSwapIn(s, ranked[x], ranked[y], potentials)
      {
        assert IsSwapIn(s, ranked[x], ranked[y], if x < i then before else swaps);
      }
    }
    forall i | 0 <= i < |ranked| && !NowhereToGo(s, ranked[i])
      ensures exists p :: p in potentials && IsBestMove(s, ranked[i], p)
    {
      var p :| p in moves && IsBestMove(s, ranked[i], p);
      assert p in potentials;
    }
    forall p | IsPotential(s, ranked, p)
      ensures p in potentials
    {
      OfferedListed(s, ranked, potentials, p);
    }
  }

  ghost predicate IsSwapIn(s: Scene, first: int, second: int, potentials: seq<Potential>) {
    first in s.at && second in s.at && first in s.ids && second in s.ids && SwapOf(s, first, second) in potentials
  }

  // ----- the accepted batch (lines 1459-1553) -----

  function ActionKeyReals(actions: seq<Action>): seq<real> {
    if actions == [] then []
    else
      var a := actions[0];
      IdentityKey(a.id) + [a.from as real, a.to as real] + ActionKeyReals(actions[1..])
  }

  /** Emergencies first, then larger gains, then the action key. */
  function SortPotentials(potentials: seq<Potential>): (r: seq<Potential>)
    ensures forall p :: p in r <==> p in potentials
    ensures SortedBy(r, PotentialKey)
  {
    var r := SortBy(potentials, PotentialKey);
    SortBySorted(potentials, PotentialKey);
    SameElements(potentials, r);
    r
  }

  function PotentialKey(p: Potential): seq<real> {
    [Bit(!p.emergency), -p.gain] + ActionKeyReals(p.actions)
  }

  /** The acceptance test of lines 1538-1544. */
  predicate Accepts(b: Board, emergency: bool, threshold: real, x: Tables, y: Tables) {
    var better := TableViolation(b, y) < TableViolation(b, x) || TableOverload(b, y) + EPS < TableOverload(b, x);
    var level := Balance(b, y.node) + EPS < Balance(b, x.node);
    && TableViolation(b, y) <= TableViolation(b, x)
    && TableOverload(b, y) <= TableOverload(b, x) + EPS
    && (emergency ==> better || level)
    && (!emergency ==> Balance(b, y.node) <= Balance(b, x.node) + EPS || Span(b, y.node) <= threshold)
  }

  function Flatten(chosen: seq<Potential>): seq<Action> {
    if chosen == [] then [] else Flatten(chosen[..|chosen| - 1]) + chosen[|chosen| - 1].actions
  }

  /** Emergency, or seen often enough in a row. */
  predicate Confirmed(confirmations: map<Key, nat>, needed: int, p: Potential) {
    p.emergency || (KeyOf(p.actions) in confirmations && confirmations[KeyOf(p.actions)] >= needed)
  }

  /** What holds of a batch while it grows. */
  ghost predicate BatchState(s: Scene, confirmations: map<Key, nat>, needed: int, budget: nat,
                             chosen: seq<Potential>, y: Tables)
  {
    var actions := Flatten(chosen);
    && |actions| <= budget
    && WellFormed(s.b, s.at, actions)
    && (forall p :: p in chosen ==> Admissible(s, p) && Confirmed(confirmations, needed, p))
    && Projects(s.b, After(s.at, actions), y)
    && TableViolation(s.b, y) <= TableViolation(s.b, s.x)
    && TableOverload(s.b, y) <= TableOverload(s.b, s.x) + |chosen| as real * EPS
  }

  /** A potential on fresh threads still starts where the grown batch leaves its threads. */
  lemma FreshAfter(b: Board, at: map<int, int>, actions: seq<Action>, more: seq<Action>)
    requires WellFormed(b, at, actions) && WellFormed(b, at, more) && TidsOf(actions) !! TidsOf(more)
    ensures WellFormed(b, After(at, actions), more)
    ensures WellFormed(b, at, actions + more)
  {
    forall a | a in more
      ensures a.id.tid in After(at, actions) && After(at, actions)[a.id.tid] == a.from
    {
      assert a.id.tid in TidsOf(more);
      AfterElsewhere(at, actions, a.id.tid);
    }
    forall i, j | 0 <= i < j < |actions + more|
      ensures (actions + more)[i].id.tid != (actions + more)[j].id.tid
    {
      var x, y := (actions + more)[i], (actions + more)[j];
      if i < |actions| <= j {
        assert x in actions && y in more;
        assert x.id.tid in TidsOf(actions) && y.id.tid in TidsOf(more);
      }
    }
  }

  lemma AdmissibleShape(s: Scene, p: Potential)
    requires Admissible(s, p)
    ensures WellFormed(s.b, s.at, p.actions)
  {
    hide WellFormed;
  }

  lemma Grow(s: Scene, confirmations: map<Key, nat>, needed: int, budget: nat, chosen: seq<Potential>,
             x: Tables, y: Tables, p: Potential)
    requires BatchState(s, confirmations, needed, budget, chosen, x)
    requires Admissible(s, p) && Confirmed(confirmations, needed, p)
    requires |Flatten(chosen)| + |p.actions| <= budget
    requires TidsOf(Flatten(chosen)) !! TidsOf(p.actions)
    requires Projects(s.b, After(After(s.at, Flatten(chosen)), p.actions), y)
    requires Accepts(s.b, p.emergency, s.threshold, x, y)
    ensures BatchState(s, confirmations, needed, budget, chosen + [p], y)
    ensures Flatten(chosen + [p]) == Flatten(chosen) + p.actions
  {
    hide Projects, WellFormed, TableViolation, TableOverload, Balance, Span, Confirmed, After, TidsOf;
    var actions := Flatten(chosen);
    AdmissibleShape(s, p);
    assert (chosen + [p])[..|chosen|] == chosen;
    FreshAfter(s.b, s.at, actions, p.actions);
    AfterAppend(s.at, actions, p.actions);
    assert (|chosen| + 1) as real * EPS == |chosen| as real * EPS + EPS;
    hide Admissible;
  }

  // The same selection without running tables: every potential is judged by the totals of the
  // whole placement before and after it.

  function NodeLoads(b: Board, at: map<int, int>): map<int, real> {
    map n | n in b.nodes :: Load(b.tids, b.demand, NodeAt(b, at), n)
  }

  predicate Welcome(b: Board, emergency: bool, threshold: real, at: map<int, int>, after: map<int, int>) {
    var better := SlotViolation(b, after) < SlotViolation(b, at) || OverloadOf(b, after) + EPS < OverloadOf(b, at);
    var before, now := NodeLoads(b, at), NodeLoads(b, after);
    && SlotViolation(b, after) <= SlotViolation(b, at)
    && OverloadOf(b, after) <= OverloadOf(b, at) + EPS
    && (emergency ==> better || Balance(b, now) + EPS < Balance(b, before))
    && (!emergency ==> Balance(b, now) <= Balance(b, before) + EPS || Span(b, now) <= threshold)
  }

  lemma {:induction false} SameUse(b: Board, nodes: seq<int>, x: map<int, real>, y: map<int, real>)
    requires forall n :: n in nodes ==> GetReal(x, n) == GetReal(y, n)
    ensures HighestUse(b, nodes, x) == HighestUse(b, nodes, y)
    ensures nodes != [] ==> LowestUse(b, nodes, x) == LowestUse(b, nodes, y)
  {
    if nodes != [] {
      var n := nodes[0];
      assert n in nodes;
      SameUse(b, nodes[1..], x, y);
    }
  }

  lemma SameBalance(b: Board, x: map<int, real>, y: map<int, real>)
    requires forall n :: n in b.nodes ==> GetReal(x, n) == GetReal(y, n)
    ensures Balance(b, x) == Balance(b, y) && Span(b, x) == Span(b, y)
  {
    hide Squared, GetReal, HighestUse, LowestUse;
    SameUse(b, b.nodes, x, y);
    SumRealEq(b.nodes, n => Squared(GetReal(x, n), Get(b.size, n)), n => Squared(GetReal(y, n), Get(b.size, n)));
  }

  lemma TableLoads(b: Board, at: map<int, int>, x: Tables)
    requires Projects(b, at, x)
    ensures Balance(b, x.node) == Balance(b, NodeLoads(b, at)) && Span(b, x.node) == Span(b, NodeLoads(b, at))
  {
    hide Balance, Span, Load, NodeAt;
    SameBalance(b, x.node, NodeLoads(b, at));
  }

  /** The test on the running tables is the test on the placements. */
  lemma AcceptsIsWelcome(b: Board, emergency: bool, threshold: real, at: map<int, int>, after: map<int, int>, x: Tables, y: Tables)
    requires Projects(b, at, x) && Projects(b, after, y)
    ensures Accepts(b, emergency, threshold, x, y) <==> Welcome(b, emergency, threshold, at, after)
  {
    ProjectedTotals(b, at, x);
    ProjectedTotals(b, after, y);
    TableLoads(b, at, x);
    TableLoads(b, after, y);
    hide Projects, TableViolation, TableOverload, SlotViolation, OverloadOf, Balance, Span, NodeLoads;
  }

  /** Whether a potential still joins a batch. */
  predicate Fits(confirmations: map<Key, nat>, needed: int, budget: nat, chosen: seq<Potential>, p: Potential) {
    var actions := Flatten(chosen);
    && Confirmed(confirmations, needed, p) && |actions| + |p.actions| <= budget && TidsOf(actions) !! TidsOf(p.actions)
  }

  /** The accepted potentials, in order. */
  function Greedy(s: Scene, potentials: seq<Potential>, confirmations: map<Key, nat>, needed: int, budget: nat): seq<Potential> {
    if potentials == [] then []
    else
      var n := |potentials| - 1;
      var chosen, p := Greedy(s, potentials[..n], confirmations, needed, budget), potentials[n];
      var at := After(s.at, Flatten(chosen));
      if Fits(confirmations, needed, budget, chosen, p) && Welcome(s.b, p.emergency, s.threshold, at, After(at, p.actions))
      then chosen + [p] else chosen
  }

  lemma GreedyStep(s: Scene, potentials: seq<Potential>, confirmations: map<Key, nat>, needed: int, budget: nat, i: nat, chosen: seq<Potential>)
    requires i < |potentials| && chosen == Greedy(s, potentials[..i], confirmations, needed, budget)
    ensures var p, at := potentials[i], After(s.at, Flatten(chosen));
      Greedy(s, potentials[..i + 1], confirmations, needed, budget) ==
      if Fits(confirmations, needed, budget, chosen, p) && Welcome(s.b, p.emergency, s.threshold, at, After(at, p.actions))
      then chosen + [p] else chosen
  {
    hide Fits, Welcome, After, Flatten;
    assert potentials[..i + 1][..i] == potentials[..i];
  }

  /** Accepts potentials in order while the budget lasts. */
  method SelectBatch(s: Scene, potentials: seq<Potential>, confirmations: map<Key, nat>, needed: int, budget: nat)
    returns (chosen: seq<Potential>, y: Tables)
    requires s.Valid() && Projects(s.b, s.at, s.x)
    requires forall p :: p in potentials ==> Admissible(s, p)
    ensures BatchState(s, confirmations, needed, budget, chosen, y)
    ensures forall p :: p in chosen ==> p in potentials
    ensures chosen == Greedy(s, potentials, confirmations, needed, budget)
  {
    chosen, y := [], s.x;
    var selected: set<int> := {};
    for i := 0 to |potentials|
      invariant BatchState(s, confirmations, needed, budget, chosen, y)
      invariant selected == TidsOf(Flatten(chosen))
      invariant forall p :: p in chosen ==> p in potentials
      invariant chosen == Greedy(s, potentials[..i], confirmations, needed, budget)
    {
      hide BatchState, TidsOf, Flatten, Accepts, Admissible, Projects, Confirmed, Greedy, Welcome;
      var p := potentials[i];
      var actions := Flatten(chosen);
      GreedyStep(s, potentials, confirmations, needed, budget, i, chosen);
      if Confirmed(confirmations, needed, p) && |actions| + |p.actions| <= budget && selected !! TidsOf(p.actions) {
        StateFacts(s, confirmations, needed, budget, chosen, y, p);
        var next := MoveAll(s.b, After(s.at, actions), y, p.actions);
        AcceptsIsWelcome(s.b, p.emergency, s.threshold, After(s.at, actions), After(After(s.at, actions), p.actions), y, next);
        if Accepts(s.b, p.emergency, s.threshold, y, next) {
          Grow(s, confirmations, needed, budget, chosen, y, next, p);
          TidsOfAppend(actions, p.actions);
          chosen, y, selected := chosen + [p], next, selected + TidsOf(p.actions);
        }
      }
    }
    assert potentials[..|potentials|] == potentials;
  }

  lemma TidsOfAppend(xs: seq<Action>, ys: seq<Action>)
    ensures TidsOf(xs + ys) == TidsOf(xs) + TidsOf(ys)
  {
    forall t
      ensures t in TidsOf(xs + ys) <==> t in TidsOf(xs) + TidsOf(ys)
    {
      if t in TidsOf(xs) {
        var a :| a in xs && a.id.tid == t;
        assert a in xs + ys;
      }
      if t in TidsOf(ys) {
        var a :| a in ys && a.id.tid == t;
        assert a in xs + ys;
      }
    }
  }

  lemma StateFacts(s: Scene, confirmations: map<Key, nat>, needed: int, budget: nat, chosen: seq<Potential>, y: Tables, p: Potential)
    requires BatchState(s, confirmations, needed, budget, chosen, y) && Admissible(s, p)
    requires TidsOf(Flatten(chosen)) !! TidsOf(p.actions)
    ensures Projects(s.b, After(s.at, Flatten(chosen)), y)
    ensures WellFormed(s.b, After(s.at, Flatten(chosen)), p.actions)
  {
    FreshAfter(s.b, s.at, Flatten(chosen), p.actions);
  }

  // ----- consequences for the placement after the commit -----

  /** The batch as a whole: within the budget, nobody moved twice, total slot violation no
  higher, total overload higher by at most the tolerance per accepted potential. */
  lemma BatchSafe(s: Scene, confirmations: map<Key, nat>, needed: int, budget: nat, chosen: seq<Potential>, y: Tables)
    requires s.Valid() && Projects(s.b, s.at, s.x)
    requires BatchState(s, confirmations, needed, budget, chosen, y)
    ensures |Flatten(chosen)| <= budget && WellFormed(s.b, s.at, Flatten(chosen))
    ensures var after := After(s.at, Flatten(chosen));
      && SlotViolation(s.b, after) <= SlotViolation(s.b, s.at)
      && OverloadOf(s.b, after) <= OverloadOf(s.b, s.at) + |chosen| as real * EPS
  {
    ProjectedTotals(s.b, s.at, s.x);
    ProjectedTotals(s.b, After(s.at, Flatten(chosen)), y);
    hide *;
  }

  lemma {:induction false} SumNonNegative(keys: seq<int>, f: int -> int)
    requires forall k :: k in keys ==> 0 <= f(k)
    ensures 0 <= Sum(keys, f)
    ensures Sum(keys, f) == 0 ==> forall k :: k in keys ==> f(k) == 0
  {
    if keys != [] {
      var k := keys[0];
      assert f(k) >= 0;
      SumNonNegative(keys[1..], f);
    }
  }

  /** No slot violation exactly when every CPU is within the cap. */
  lemma ViolationZero(b: Board, at: map<int, int>)
    ensures SlotViolation(b, at) >= 0
    ensures SlotViolation(b, at) == 0 <==> forall c :: c in b.cpus ==> Count(at, c) <= b.slot
  {
    var f := c => Excess(Count(at, c), b.slot);
    SumNonNegative(b.cpus, f);
    SumEq(b.cpus, f, c => Excess(Count(at, c), b.slot));
    if forall c :: c in b.cpus ==> Count(at, c) <= b.slot {
      SumConst(b.cpus, 0);
      SumEq(b.cpus, f, p => 0);
    } else {
      var c :| c in b.cpus && Count(at, c) > b.slot;
      assert f(c) > 0;
    }
  }
}
