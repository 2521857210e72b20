/** The delta stream of the relation graph (src/graph.cpp:233-277) and a mirror that follows it. */
module GraphDelta {
  import opened Lists
  import opened Threads
  import opened GraphStatistics
  import opened GraphWindow

  datatype Delta = Delta(
    upsertThreads: map<int, Demand>,
    removedThreads: map<int, Identity>,
    upsertEdges: map<Key, Relation>,
    removedEdges: set<Key>)

  datatype Tolerance = Tolerance(demand: real, absolute: real, relative: real)

  /** What a consumer of the deltas knows. */
  datatype Mirror = Mirror(demands: map<int, Demand>, edges: map<Key, Relation>)

  /** A consumer first forgets what was removed, then takes what was sent. */
  function Follow(m: Mirror, d: Delta): Mirror {
    Mirror((m.demands - d.removedThreads.Keys) + d.upsertThreads, (m.edges - d.removedEdges) + d.upsertEdges)
  }

  // ----- when something has to be sent -----

  /** Lines 248-252. */
  predicate Stale(tol: Tolerance, known: map<int, Demand>, t: int, now: Demand) {
    || t !in known || known[t].id != now.id || Abs(known[t].demand - now.demand) >= tol.demand || known[t].group != now.group
  }

  /** Lines 264-270. */
  predicate StaleEdge(tol: Tolerance, known: map<Key, Relation>, k: Key, now: Relation) {
    var old' := if k in known then known[k].score else 0.0;
    var absolute := Abs(now.score - old');
    || k !in known || absolute >= tol.absolute || absolute / Max(Abs(old'), 0.000000001) >= tol.relative
  }

  predicate Gone(now: map<int, Demand>, t: int, id: Identity) {
    t !in now || now[t].id != id
  }

  /** A mirror is true up to the tolerance: the same threads under the same identities and in
  the same families, the same relations, and every number equal or close. */
  ghost predicate Faithful(tol: Tolerance, m: Mirror, demands: map<int, Demand>, edges: map<Key, Relation>) {
    && m.demands.Keys == demands.Keys && m.edges.Keys == edges.Keys
    && (forall t :: t in demands ==>
          && m.demands[t].id == demands[t].id && m.demands[t].group == demands[t].group
          && (m.demands[t] == demands[t] || Abs(m.demands[t].demand - demands[t].demand) < tol.demand))
    && (forall k :: k in edges ==>
          || m.edges[k] == edges[k]
          || (Abs(edges[k].score - m.edges[k].score) < tol.absolute
              && Abs(edges[k].score - m.edges[k].score) / Max(Abs(m.edges[k].score), 0.000000001) < tol.relative))
  }

  /** Only what has changed is sent. */
  ghost predicate Sparse(tol: Tolerance, m: Mirror, demands: map<int, Demand>, edges: map<Key, Relation>, d: Delta) {
    && (forall t :: t in d.upsertThreads ==> t in demands && d.upsertThreads[t] == demands[t] && Stale(tol, m.demands, t, demands[t]))
    && (forall t :: t in d.removedThreads ==> t in m.demands && d.removedThreads[t] == m.demands[t].id && Gone(demands, t, m.demands[t].id))
    && (forall k :: k in d.upsertEdges ==> k in edges && d.upsertEdges[k] == edges[k] && StaleEdge(tol, m.edges, k, edges[k]))
    && (forall k :: k in d.removedEdges ==> k in m.edges && k !in edges)
  }

  // ----- computing a delta -----

  /** Lines 239-246. */
  method RemovedThreads(known: map<int, Demand>, now: map<int, Demand>) returns (removed: map<int, Identity>)
    ensures removed == map t | t in known && Gone(now, t, known[t].id) :: known[t].id
  {
    hide Gone;
    removed := map[];
    var todo := known.Keys;
    ghost var done: set<int> := {};
    while todo != {}
      invariant todo + done == known.Keys && todo !! done
      invariant removed == map t | t in done && Gone(now, t, known[t].id) :: known[t].id
      decreases todo
    {
      Inhabited(todo);
      var t := Least(todo);
      assert t in known.Keys;
      if Gone(now, t, known[t].id) {
        removed := removed[t := known[t].id];
      }
      todo, done := todo - {t}, done + {t};
    }
    assert done == known.Keys;
  }

  /** Lines 247-256. */
  method UpsertThreads(tol: Tolerance, known: map<int, Demand>, now: map<int, Demand>) returns (sent: map<int, Demand>, next: map<int, Demand>)
    ensures sent == map t | t in now && Stale(tol, known, t, now[t]) :: now[t]
    ensures next == known + sent
  {
    hide Stale;
    sent, next := map[], known;
    var todo := now.Keys;
    ghost var done: set<int> := {};
    while todo != {}
      invariant todo + done == now.Keys && todo !! done
      invariant sent == map t | t in done && Stale(tol, known, t, now[t]) :: now[t]
      invariant next == known + sent
      decreases todo
    {
      Inhabited(todo);
      var t := Least(todo);
      assert t in now.Keys;
      StaleSame(tol, known, next, t, now[t]);
      if Stale(tol, next, t, now[t]) {
        sent, next := sent[t := now[t]], next[t := now[t]];
      }
      todo, done := todo - {t}, done + {t};
    }
    assert done == now.Keys;
  }

  lemma StaleSame(tol: Tolerance, a: map<int, Demand>, b: map<int, Demand>, t: int, now: Demand)
    requires (t in a <==> t in b) && (t in a ==> a[t] == b[t])
    ensures Stale(tol, a, t, now) == Stale(tol, b, t, now)
  {
  }

  lemma StaleEdgeSame(tol: Tolerance, a: map<Key, Relation>, b: map<Key, Relation>, k: Key, now: Relation)
    requires (k in a <==> k in b) && (k in a ==> a[k] == b[k])
    ensures StaleEdge(tol, a, k, now) == StaleEdge(tol, b, k, now)
  {
  }

  /** Lines 261-275. */
  method UpsertEdges(tol: Tolerance, known: map<Key, Relation>, now: map<Key, Relation>)
    returns (sent: map<Key, Relation>, removed: set<Key>, next: map<Key, Relation>)
    ensures sent == map k | k in now && StaleEdge(tol, known, k, now[k]) :: now[k]
    ensures removed == known.Keys - now.Keys && next == known - removed + sent
  {
    hide StaleEdge;
    removed := known.Keys - now.Keys;
    sent, next := map[], known;
    var todo := now.Keys;
    ghost var done: set<Key> := {};
    while todo != {}
      invariant todo + done == now.Keys && todo !! done
      invariant sent == map k | k in done && StaleEdge(tol, known, k, now[k]) :: now[k]
      invariant next == known + sent
      decreases todo
    {
      Nonempty(todo);
      var k :| k in todo;
      assert k in now.Keys;
      StaleEdgeSame(tol, known, next, k, now[k]);
      if StaleEdge(tol, next, k, now[k]) {
        sent, next := sent[k := now[k]], next[k := now[k]];
      }
      todo, done := todo - {k}, done + {k};
    }
    assert done == now.Keys;
    next := next - removed;
  }

  /** The consumer of one delta is true again, whatever it knew before. */
  lemma DeltaFaithful(tol: Tolerance, m: Mirror, demands: map<int, Demand>, edges: map<Key, Relation>, d: Delta)
    requires d.removedThreads == map t | t in m.demands && Gone(demands, t, m.demands[t].id) :: m.demands[t].id
    requires d.upsertThreads == map t | t in demands && Stale(tol, m.demands - d.removedThreads.Keys, t, demands[t]) :: demands[t]
    requires d.upsertEdges == map k | k in edges && StaleEdge(tol, m.edges, k, edges[k]) :: edges[k]
    requires d.removedEdges == m.edges.Keys - edges.Keys
    ensures Faithful(tol, Follow(m, d), demands, edges) && Sparse(tol, m, demands, edges, d)
  {
    ThreadsFaithful(tol, m, demands, d);
    EdgesFaithful(tol, m, edges, d);
    DeltaSparse(tol, m, demands, edges, d);
    hide Stale, StaleEdge, Gone, Sparse, Follow, Abs, Max;
  }

  lemma DeltaSparse(tol: Tolerance, m: Mirror, demands: map<int, Demand>, edges: map<Key, Relation>, d: Delta)
    requires d.removedThreads == map t | t in m.demands && Gone(demands, t, m.demands[t].id) :: m.demands[t].id
    requires d.upsertThreads == map t | t in demands && Stale(tol, m.demands - d.removedThreads.Keys, t, demands[t]) :: demands[t]
    requires d.upsertEdges == map k | k in edges && StaleEdge(tol, m.edges, k, edges[k]) :: edges[k]
    requires d.removedEdges == m.edges.Keys - edges.Keys
    ensures Sparse(tol, m, demands, edges, d)
  {
    hide Stale, StaleEdge, Gone;
    forall t | t in d.upsertThreads
      ensures Stale(tol, m.demands, t, demands[t])
    {
      RemovedStale(tol, m.demands, demands, d.removedThreads, t);
    }
  }

  lemma RemovedStale(tol: Tolerance, known: map<int, Demand>, demands: map<int, Demand>, removed: map<int, Identity>, t: int)
    requires removed == map u | u in known && Gone(demands, u, known[u].id) :: known[u].id
    requires t in demands && Stale(tol, known - removed.Keys, t, demands[t])
    ensures Stale(tol, known, t, demands[t])
  {
  }

  lemma ThreadsFaithful(tol: Tolerance, m: Mirror, demands: map<int, Demand>, d: Delta)
    requires d.removedThreads == map t | t in m.demands && Gone(demands, t, m.demands[t].id) :: m.demands[t].id
    requires d.upsertThreads == map t | t in demands && Stale(tol, m.demands - d.removedThreads.Keys, t, demands[t]) :: demands[t]
    ensures var f := Follow(m, d).demands;
      && f.Keys == demands.Keys
      && (forall t :: t in demands ==>
          && f[t].id == demands[t].id && f[t].group == demands[t].group
          && (f[t] == demands[t] || Abs(f[t].demand - demands[t].demand) < tol.demand))
  {
    hide Abs;
    var f := Follow(m, d).demands;
    forall t
      ensures t in f.Keys <==> t in demands.Keys
    {
    }
  }

  lemma EdgesFaithful(tol: Tolerance, m: Mirror, edges: map<Key, Relation>, d: Delta)
    requires d.upsertEdges == map k | k in edges && StaleEdge(tol, m.edges, k, edges[k]) :: edges[k]
    requires d.removedEdges == m.edges.Keys - edges.Keys
    ensures var f := Follow(m, d).edges;
      && f.Keys == edges.Keys
      && (forall k :: k in edges ==>
          || f[k] == edges[k]
          || (Abs(edges[k].score - f[k].score) < tol.absolute
              && Abs(edges[k].score - f[k].score) / Max(Abs(f[k].score), 0.000000001) < tol.relative))
  {
    hide Abs, Max;
    var f := Follow(m, d).edges;
    forall k: Key
      ensures k in f.Keys <==> k in edges.Keys
    {
    }
  }

  /** What the graph has sent so far. */
  ghost function Sent(g: Graph): Mirror
    reads g
  {
    Mirror(g.emittedDemands, g.emittedEdges)
  }

  /** Lines 233-277. */
  method TakeDelta(g: Graph, tol: Tolerance) returns (d: Delta)
    requires g.Valid()
    modifies g
    ensures g.Valid() && g.W() == old(g.W()) && g.aggregates == old(g.aggregates)
    ensures Sent(g) == Follow(old(Sent(g)), d)
    ensures Faithful(tol, Sent(g), DemandsOf(g.scale, g.threads), RelationsOf(g.scale, g.aggregates, DemandsOf(g.scale, g.threads)))
    ensures Sparse(tol, old(Sent(g)), DemandsOf(g.scale, g.threads), RelationsOf(g.scale, g.aggregates, DemandsOf(g.scale, g.threads)), d)
  {
    hide Folds, Named, DemandsOf, RelationsOf, Scale.Valid, Faithful, Sparse, Stale, StaleEdge, Gone, Follow;
    ghost var m := Sent(g);
    NamedDemands(g.scale, g.threads);
    var demands := g.Demands();
    var edges := g.Edges();
    var next, nextEdges;
    d, next, nextEdges := Differ(tol, g.emittedDemands, g.emittedEdges, demands, edges);
    g.emittedDemands, g.emittedEdges := next, nextEdges;
  }

  /** Lines 236-275: what has changed since the last delta. */
  method Differ(tol: Tolerance, emitted: map<int, Demand>, emittedEdges: map<Key, Relation>, demands: map<int, Demand>, edges: map<Key, Relation>)
    returns (d: Delta, next: map<int, Demand>, nextEdges: map<Key, Relation>)
    requires (forall t :: t in emitted ==> emitted[t].id.tid == t) && (forall t :: t in demands ==> demands[t].id.tid == t)
    ensures Mirror(next, nextEdges) == Follow(Mirror(emitted, emittedEdges), d)
    ensures Faithful(tol, Mirror(next, nextEdges), demands, edges) && Sparse(tol, Mirror(emitted, emittedEdges), demands, edges, d)
    ensures forall t :: t in next ==> next[t].id.tid == t
  {
    hide Faithful, Sparse, Stale, StaleEdge, Gone;
    var removed := RemovedThreads(emitted, demands);
    var known := emitted - removed.Keys;
    var sent, sentEdges, removedEdges;
    sent, next := UpsertThreads(tol, known, demands);
    sentEdges, removedEdges, nextEdges := UpsertEdges(tol, emittedEdges, edges);
    d := Delta(sent, removed, sentEdges, removedEdges);
    DeltaFaithful(tol, Mirror(emitted, emittedEdges), demands, edges, d);
  }

  /** What happens to a graph. */
  datatype Step =
    | Samples(samples: seq<Sample>)
    | Relates(observation: Observation)
    | Retains(relations: set<Key>)
    | Takes

  /** What a step makes of the samples and relations in the window. */
  function Stepped(horizon: nat, w: Window, step: Step): Window {
    match step
    case Samples(samples) => Expire(EnterAll(w, samples), Cutoff(horizon, samples))
    case Relates(o) =>
      var k := EdgeKey(o.from, o.to);
      if k.0 == k.1 then w
      else w.(histories := w.histories[k := (if k in w.histories then w.histories[k] else []) + [o]])
    case Retains(relations) => w.(histories := map k | k in w.histories && k in relations :: w.histories[k])
    case Takes => w
  }

  /** The window after some steps, from the samples and relations alone. */
  function Replay(horizon: nat, script: seq<Step>): Window {
    if script == [] then Window(map[], map[])
    else Stepped(horizon, Replay(horizon, script[..|script| - 1]), script[|script| - 1])
  }

  /** The relations of a window, each computed from its whole history. */
  function TrueEdges(s: Scale, w: Window): map<Key, Relation>
    requires s.Valid()
  {
    RelationsOf(s, Totals(w.histories), DemandsOf(s, w.threads))
  }

  function Totals(histories: map<Key, seq<Observation>>): map<Key, Aggregate> {
    map k | k in histories :: Fold(k, histories[k])
  }

  lemma FoldsAre(histories: map<Key, seq<Observation>>, aggregates: map<Key, Aggregate>)
    requires Folds(histories, aggregates)
    ensures aggregates == Totals(histories)
  {
    hide Fold;
    var m := Totals(histories);
    forall k: Key
      ensures k in aggregates <==> k in m
    {
      assert k in histories.Keys <==> k in aggregates.Keys;
    }
  }

  /** What the mirror knows after one step: after a delta the truth, otherwise what it knew before. */
  ghost predicate MirrorStep(s: Scale, tol: Tolerance, w: Window, step: Step, before: Mirror, after: Mirror)
    requires s.Valid()
  {
    if step.Takes? then Faithful(tol, after, DemandsOf(s, w.threads), TrueEdges(s, w)) else after == before
  }

  /** One step of the graph, and of a mirror that follows its deltas. */
  method TakeStep(g: Graph, tol: Tolerance, step: Step, mirror: Mirror) returns (next: Mirror)
    requires g.Valid() && mirror == Sent(g)
    modifies g
    ensures g.Valid() && next == Sent(g) && g.W() == Stepped(g.scale.horizon, old(g.W()), step)
    ensures MirrorStep(g.scale, tol, old(g.W()), step, mirror, next)
  {
    hide Folds, Named, DemandsOf, RelationsOf, Scale.Valid, Faithful, Sparse, Follow, EnterAll, Expire, Cutoff, Totals;
    next := mirror;
    match step
    case Samples(samples) =>
      g.ObserveThreads(samples);
    case Relates(o) =>
      g.ObserveRelation(o);
    case Retains(relations) =>
      g.RetainRelations(relations);
    case Takes =>
      FoldsAre(g.histories, g.aggregates);
      var d := TakeDelta(g, tol);
      next := Follow(mirror, d);
  }

  /** Over every run, the graph holds what the samples and relations of the run come to, and a
  mirror that follows every delta has after each of them exactly the threads and relations of the
  graph at that time, each within its tolerance; the errors do not add up. */
  method MirrorRun(scale: Scale, tol: Tolerance, script: seq<Step>) returns (g: Graph, mirror: Mirror, ghost mirrors: seq<Mirror>)
    requires scale.Valid()
    ensures fresh(g) && g.Valid() && g.scale == scale && mirror == Sent(g) && g.W() == Replay(scale.horizon, script)
    ensures |mirrors| == |script| + 1 && mirrors[0] == Mirror(map[], map[]) && mirrors[|script|] == mirror
    ensures forall i :: 0 <= i < |script| ==> MirrorStep(scale, tol, Replay(scale.horizon, script[..i]), script[i], mirrors[i], mirrors[i + 1])
  {
    hide Folds, Named, DemandsOf, Scale.Valid, Stepped, MirrorStep, Graph.Valid;
    g := new Graph(scale);
    mirror := Mirror(map[], map[]);
    mirrors := [mirror];
    for i := 0 to |script|
      invariant fresh(g) && g.Valid() && g.scale == scale && mirror == Sent(g) && g.W() == Replay(scale.horizon, script[..i])
      invariant |mirrors| == i + 1 && mirrors[0] == Mirror(map[], map[]) && mirrors[i] == mirror
      invariant forall j :: 0 <= j < i ==> MirrorStep(scale, tol, Replay(scale.horizon, script[..j]), script[j], mirrors[j], mirrors[j + 1])
    {
      hide Replay;
      ReplayStep(scale.horizon, script, i);
      ghost var before := mirrors;
      mirror := TakeStep(g, tol, script[i], mirror);
      mirrors := mirrors + [mirror];
      forall j | 0 <= j <= i
        ensures MirrorStep(scale, tol, Replay(scale.horizon, script[..j]), script[j], mirrors[j], mirrors[j + 1])
      {
        if j < i {
          assert mirrors[j] == before[j] && mirrors[j + 1] == before[j + 1];
        }
      }
    }
    assert script[..|script|] == script;
  }

  lemma ReplayStep(horizon: nat, script: seq<Step>, i: nat)
    requires i < |script|
    ensures Replay(horizon, script[..i + 1]) == Stepped(horizon, Replay(horizon, script[..i]), script[i])
  {
    hide Stepped;
    assert script[..i + 1][..i] == script[..i];
  }
}
