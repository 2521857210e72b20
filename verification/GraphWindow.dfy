/** `GraphWindow` of src/graph.cpp: a sliding window of samples and relations with running
aggregates, two caches and a stream of deltas. */
module GraphWindow {
  import opened Lists
  import opened GraphStatistics

  // ----- histories -----

  /** Lines 45 and 51-66: what is older than the cutoff goes, from the front. */
  function DropOld<T>(h: seq<T>, time: T -> nat, cutoff: nat): (r: seq<T>)
    ensures |r| <= |h| && r == h[|h| - |r|..]
    ensures r != [] ==> time(r[0]) >= cutoff
    ensures forall i :: 0 <= i < |h| - |r| ==> time(h[i]) < cutoff
  {
    if h == [] || time(h[0]) >= cutoff then h
    else
      var r := DropOld(h[1..], time, cutoff);
      assert h[1..][|h| - 1 - |r|..] == h[|h| - |r|..];
      assert forall i :: 0 < i < |h| - |r| ==> h[i] == h[1..][i - 1];
      r
  }

  function Recent(h: seq<Sample>, cutoff: nat): seq<Sample> {
    DropOld(h, (s: Sample) => s.time, cutoff)
  }

  function RecentRelations(h: seq<Observation>, cutoff: nat): seq<Observation> {
    DropOld(h, (o: Observation) => o.time, cutoff)
  }

  predicate Joins(k: Key, tid: int) {
    k.0 == tid || k.1 == tid
  }

  function History(threads: map<int, seq<Sample>>, tid: int): seq<Sample> {
    if tid in threads then threads[tid] else []
  }

  /** A sample of a thread that has started anew under an old id. */
  predicate Restarts(threads: map<int, seq<Sample>>, s: Sample) {
    var h := History(threads, s.id.tid);
    h != [] && h[|h| - 1].id.starttime != s.id.starttime
  }

  datatype Window = Window(threads: map<int, seq<Sample>>, histories: map<Key, seq<Observation>>)

  /** Lines 26-40: a restarted thread loses its samples and its relations. */
  function Enter(w: Window, s: Sample): Window {
    var t := s.id.tid;
    if Restarts(w.threads, s)
    then Window(w.threads[t := [s]], map k | k in w.histories && !Joins(k, t) :: w.histories[k])
    else Window(w.threads[t := History(w.threads, t) + [s]], w.histories)
  }

  function EnterAll(w: Window, samples: seq<Sample>): Window {
    if samples == [] then w
    else Enter(EnterAll(w, samples[..|samples| - 1]), samples[|samples| - 1])
  }

  function Newest(samples: seq<Sample>): nat {
    if samples == [] then 0
    else
      var rest, t := Newest(samples[..|samples| - 1]), samples[|samples| - 1].time;
      if rest < t then t else rest
  }

  /** Lines 42-43. */
  function Cutoff(horizon: nat, samples: seq<Sample>): nat {
    if Newest(samples) > horizon * 1000000000 then Newest(samples) - horizon * 1000000000 else 0
  }

  function Expire(w: Window, cutoff: nat): Window {
    Window(map t | t in w.threads && Recent(w.threads[t], cutoff) != [] :: Recent(w.threads[t], cutoff),
           map k | k in w.histories && RecentRelations(w.histories[k], cutoff) != [] :: RecentRelations(w.histories[k], cutoff))
  }

  // ----- the invariant -----

  /** Every relation has a history and an aggregate, and the aggregate is that of the history. */
  ghost predicate Folds(histories: map<Key, seq<Observation>>, aggregates: map<Key, Aggregate>) {
    && histories.Keys == aggregates.Keys
    && (forall k :: k in histories ==> histories[k] != [] && aggregates[k] == Fold(k, histories[k]) && k.0 < k.1)
  }

  /** Every thread has samples, all under its own id. */
  ghost predicate Named(threads: map<int, seq<Sample>>) {
    forall t :: t in threads ==> threads[t] != [] && forall s :: s in threads[t] ==> s.id.tid == t
  }

  function DemandsOf(s: Scale, threads: map<int, seq<Sample>>): map<int, Demand> {
    map t | t in threads && threads[t] != [] :: DemandOf(s, threads[t])
  }

  function RelationsOf(s: Scale, aggregates: map<Key, Aggregate>, demands: map<int, Demand>): map<Key, Relation>
    requires s.Valid()
  {
    map k | k in aggregates && aggregates[k].count > 0 && k.0 in demands && k.1 in demands ::
      RelationOf(s, k, aggregates[k], demands[k.0].demand, demands[k.1].demand)
  }

  ghost predicate Cached<T>(valid: bool, cache: T, truth: T) {
    valid ==> cache == truth
  }

  // ----- what a window does to the records -----

  lemma EnterNamed(w: Window, s: Sample)
    requires Named(w.threads)
    ensures Named(Enter(w, s).threads)
  {
  }

  lemma ExpireNamed(w: Window, cutoff: nat)
    requires Named(w.threads)
    ensures Named(Expire(w, cutoff).threads)
  {
    var e := Expire(w, cutoff);
    forall t | t in e.threads
      ensures e.threads[t] != [] && forall s :: s in e.threads[t] ==> s.id.tid == t
    {
      var h, r := w.threads[t], e.threads[t];
      forall s | s in r
        ensures s.id.tid == t
      {
        assert s in h;
      }
    }
  }

  /** Taking the oldest observations out of a history and out of its aggregate. */
  method ExpireRelation(k: Key, history: seq<Observation>, aggregate: Aggregate, cutoff: nat)
    returns (h: seq<Observation>, a: Aggregate)
    requires aggregate == Fold(k, history)
    ensures h == RecentRelations(history, cutoff) && a == Fold(k, h)
  {
    hide Fold, Minus;
    h, a := history, aggregate;
    while h != [] && h[0].time < cutoff
      invariant a == Fold(k, h)
      invariant RecentRelations(h, cutoff) == RecentRelations(history, cutoff)
      decreases |h|
    {
      FoldDropsFirst(k, h);
      a := Minus(k, a, h[0]);
      h := h[1..];
    }
  }

  lemma EnterFolds(w: Window, aggregates: map<Key, Aggregate>, s: Sample)
    requires Folds(w.histories, aggregates)
    ensures Restarts(w.threads, s) ==> Folds(Enter(w, s).histories, map k | k in aggregates && !Joins(k, s.id.tid) :: aggregates[k])
    ensures !Restarts(w.threads, s) ==> Folds(Enter(w, s).histories, aggregates)
  {
    hide Fold;
    if Restarts(w.threads, s) {
      var h, a := Enter(w, s).histories, map k | k in aggregates && !Joins(k, s.id.tid) :: aggregates[k];
      forall k: Key
        ensures k in h.Keys <==> k in a.Keys
      {
        assert k in w.histories.Keys <==> k in aggregates.Keys;
      }
    }
  }

  lemma FoldsMore(histories: map<Key, seq<Observation>>, aggregates: map<Key, Aggregate>, k: Key, o: Observation)
    requires Folds(histories, aggregates) && k.0 < k.1
    ensures var h, a := if k in histories then histories[k] else [], if k in aggregates then aggregates[k] else NOTHING;
      Folds(histories[k := h + [o]], aggregates[k := Plus(k, a, o)])
  {
    assert k in histories.Keys <==> k in aggregates.Keys;
    hide Plus;
    var h, a := if k in histories then histories[k] else [], if k in aggregates then aggregates[k] else NOTHING;
    assert a == Fold(k, h);
    assert Fold(k, h + [o]) == Plus(k, a, o) by {
      assert (h + [o])[..|h|] == h;
    }
    hide Fold;
    FoldsPut(histories, aggregates, k, h + [o]);
  }

  lemma FoldsPut(histories: map<Key, seq<Observation>>, aggregates: map<Key, Aggregate>, k: Key, h: seq<Observation>)
    requires Folds(histories, aggregates) && k.0 < k.1 && h != []
    ensures Folds(histories[k := h], aggregates[k := Fold(k, h)])
  {
    hide Fold;
  }

  lemma FoldsAt(histories: map<Key, seq<Observation>>, aggregates: map<Key, Aggregate>, k: Key)
    requires Folds(histories, aggregates) && k in histories
    ensures k in aggregates && aggregates[k] == Fold(k, histories[k])
  {
    assert k in histories.Keys;
  }

  lemma FoldsSet(histories: map<Key, seq<Observation>>, aggregates: map<Key, Aggregate>, k: Key, h: seq<Observation>)
    requires Folds(histories, aggregates) && k in histories
    ensures if h == [] then Folds(histories - {k}, aggregates - {k}) else Folds(histories[k := h], aggregates[k := Fold(k, h)])
  {
    hide Fold;
    assert k in histories.Keys;
    if h != [] {
      FoldsPut(histories, aggregates, k, h);
    }
  }

  lemma TrimOne(from: map<Key, seq<Observation>>, cutoff: nat, todo: set<Key>, histories: map<Key, seq<Observation>>, k: Key)
    requires Trimmed(from, cutoff, todo, histories) && k in todo && todo <= from.Keys
    ensures k in histories && histories[k] == from[k]
    ensures var h := RecentRelations(from[k], cutoff);
      Trimmed(from, cutoff, todo - {k}, if h == [] then histories - {k} else histories[k := h])
  {
    hide RecentRelations;
  }

  lemma TrimAll(w: Window, cutoff: nat, histories: map<Key, seq<Observation>>)
    requires Trimmed(w.histories, cutoff, {}, histories)
    ensures histories == Expire(w, cutoff).histories
  {
    hide RecentRelations;
  }

  /** The histories visited so far have been trimmed. */
  ghost predicate Trimmed(from: map<Key, seq<Observation>>, cutoff: nat, todo: set<Key>, histories: map<Key, seq<Observation>>) {
    && (forall k :: k in histories <==> k in from && (k in todo || RecentRelations(from[k], cutoff) != []))
    && (forall k :: k in histories ==> histories[k] == if k in todo then from[k] else RecentRelations(from[k], cutoff))
  }

  lemma TrimNone(from: map<Key, seq<Observation>>, cutoff: nat)
    ensures Trimmed(from, cutoff, from.Keys, from)
  {
  }

  class Graph {
    const scale: Scale
    var threads: map<int, seq<Sample>>
    var histories: map<Key, seq<Observation>>
    var aggregates: map<Key, Aggregate>
    var demandsValid: bool
    var edgesValid: bool
    var demandCache: map<int, Demand>
    var edgeCache: map<Key, Relation>
    var emittedDemands: map<int, Demand>
    var emittedEdges: map<Key, Relation>

    ghost predicate Valid()
      reads this
    {
      && scale.Valid() && Folds(histories, aggregates) && Named(threads)
      && Cached(demandsValid, demandCache, DemandsOf(scale, threads))
      && Cached(edgesValid, edgeCache, RelationsOf(scale, aggregates, DemandsOf(scale, threads)))
      && (forall t :: t in emittedDemands ==> emittedDemands[t].id.tid == t)
    }

    ghost function W(): Window
      reads this
    {
      Window(threads, histories)
    }

    constructor (scale: Scale)
      requires scale.Valid()
      ensures Valid() && this.scale == scale && W() == Window(map[], map[]) && emittedDemands == map[] && emittedEdges == map[]
    {
      this.scale := scale;
      threads, histories, aggregates := map[], map[], map[];
      demandsValid, edgesValid, demandCache, edgeCache := false, false, map[], map[];
      emittedDemands, emittedEdges := map[], map[];
      new;
      hide RelationsOf, DemandsOf, Scale.Valid, Fold;
    }

    /** Lines 76-93. */
    method ObserveRelation(o: Observation)
      requires Valid()
      modifies this`histories, this`aggregates, this`edgesValid
      ensures Valid()
      ensures histories == var k := EdgeKey(o.from, o.to);
        if k.0 == k.1 then old(histories) else old(histories)[k := (if k in old(histories) then old(histories)[k] else []) + [o]]
    {
      hide Named, DemandsOf, RelationsOf, Plus, Scale.Valid, Folds, Fold;
      var k := EdgeKey(o.from, o.to);
      if k.0 == k.1 {
        return;
      }
      var h := if k in histories then histories[k] else [];
      var a := if k in aggregates then aggregates[k] else NOTHING;
      FoldsMore(histories, aggregates, k, o);
      histories, aggregates := histories[k := h + [o]], aggregates[k := Plus(k, a, o)];
      edgesValid := false;
    }

    /** Lines 95-108. */
    method RetainRelations(relations: set<Key>)
      requires Valid()
      modifies this`histories, this`aggregates, this`edgesValid
      ensures Valid() && histories == map k | k in old(histories) && k in relations :: old(histories)[k]
      ensures edgesValid <==> old(edgesValid) && forall k :: k in old(histories) ==> k in relations
    {
      hide Named, DemandsOf, RelationsOf, Fold, Scale.Valid;
      var changed := exists k :: k in histories && k !in relations;
      assert forall k :: k in histories.Keys <==> k in aggregates.Keys;
      if changed {
        histories := map k | k in histories && k in relations :: histories[k];
        aggregates := map k | k in aggregates && k in relations :: aggregates[k];
        edgesValid := false;
      } else {
        assert histories == map k | k in histories && k in relations :: histories[k];
      }
    }

    /** Lines 24-41. */
    method EnterSamples(samples: seq<Sample>) returns (newest: nat)
      requires Folds(histories, aggregates) && Named(threads)
      modifies this`threads, this`histories, this`aggregates
      ensures Folds(histories, aggregates) && Named(threads)
      ensures W() == EnterAll(old(W()), samples) && newest == Newest(samples)
    {
      hide Folds, Named, Enter, Restarts;
      newest := 0;
      for i := 0 to |samples|
        invariant Folds(histories, aggregates) && Named(threads)
        invariant W() == EnterAll(old(W()), samples[..i]) && newest == Newest(samples[..i])
      {
        assert samples[..i + 1][..i] == samples[..i];
        var s := samples[i];
        ghost var w := W();
        EnterNamed(w, s);
        EnterFolds(w, aggregates, s);
        EnterIs(w, s);
        newest := if newest < s.time then s.time else newest;
        var t := s.id.tid;
        if Restarts(threads, s) {
          threads := threads[t := [s]];
          histories := map k | k in histories && !Joins(k, t) :: histories[k];
          aggregates := map k | k in aggregates && !Joins(k, t) :: aggregates[k];
        } else {
          threads := threads[t := History(threads, t) + [s]];
        }
      }
      assert samples[..|samples|] == samples;
    }

    /** Lines 48-73. */
    method ExpireRelations(cutoff: nat)
      requires Folds(histories, aggregates)
      modifies this`histories, this`aggregates
      ensures Folds(histories, aggregates) && histories == Expire(old(W()), cutoff).histories
    {
      hide Folds, Fold, RecentRelations, Trimmed, Expire;
      ghost var w, from := W(), histories;
      var todo := histories.Keys;
      TrimNone(from, cutoff);
      while todo != {}
        invariant todo <= from.Keys && Folds(histories, aggregates) && Trimmed(from, cutoff, todo, histories)
        decreases todo
      {
        Nonempty(todo);
        var k :| k in todo;
        TrimOne(from, cutoff, todo, histories, k);
        FoldsAt(histories, aggregates, k);
        var h, a := ExpireRelation(k, histories[k], aggregates[k], cutoff);
        FoldsSet(histories, aggregates, k, h);
        if h == [] {
          histories, aggregates := histories - {k}, aggregates - {k};
        } else {
          histories, aggregates := histories[k := h], aggregates[k := a];
        }
        todo := todo - {k};
      }
      TrimAll(w, cutoff, histories);
    }

    /** Lines 20-74. */
    method ObserveThreads(samples: seq<Sample>)
      requires Valid()
      modifies this`threads, this`histories, this`aggregates, this`demandsValid, this`edgesValid
      ensures Valid() && W() == Expire(EnterAll(old(W()), samples), Cutoff(scale.horizon, samples))
    {
      hide Folds, Named, EnterAll, Newest, Expire, Recent, DemandsOf, RelationsOf, Scale.Valid;
      demandsValid, edgesValid := false, false;
      var newest := EnterSamples(samples);
      var cutoff := if newest > scale.horizon * 1000000000 then newest - scale.horizon * 1000000000 else 0;
      ghost var w := W();
      ExpireNamed(w, cutoff);
      ExpireIs(w, cutoff);
      ExpireRelations(cutoff);
      threads := map t | t in threads && Recent(threads[t], cutoff) != [] :: Recent(threads[t], cutoff);
    }

    /** Lines 128-158. */
    method Demands() returns (r: map<int, Demand>)
      requires Valid()
      modifies this`demandsValid, this`demandCache
      ensures Valid() && demandsValid && r == demandCache == DemandsOf(scale, threads)
      ensures forall t :: t in r ==> Unit(r[t].demand)
    {
      hide Folds, DemandOf, RelationsOf, Scale.Valid;
      NamedDemands(scale, threads);
      if demandsValid {
        return demandCache;
      }
      r := map[];
      var todo := threads.Keys;
      ghost var done: set<int> := {};
      while todo != {}
        invariant todo + done == threads.Keys && todo !! done
        invariant r == map t | t in done :: DemandOf(scale, threads[t])
        decreases todo
      {
        Inhabited(todo);
        var t := Least(todo);
        assert t in threads.Keys;
        var d := Measure(scale, threads[t]);
        r, todo, done := r[t := d], todo - {t}, done + {t};
      }
      assert done == threads.Keys;
      demandCache, demandsValid := r, true;
    }

    /** Lines 198-231. */
    method Edges() returns (r: map<Key, Relation>)
      requires Valid()
      modifies this`demandsValid, this`demandCache, this`edgesValid, this`edgeCache
      ensures Valid() && edgesValid && r == edgeCache == RelationsOf(scale, aggregates, DemandsOf(scale, threads))
      ensures forall k :: k in r ==> 0.0 <= r[k].score <= 100.0
    {
      hide Folds, Named, DemandsOf, RelationsOf, Scale.Valid;
      if !edgesValid {
        var demand := Demands();
        edgeCache := Relate(scale, aggregates, demand);
        edgesValid := true;
      }
      RelationsRange(scale, aggregates, DemandsOf(scale, threads));
      r := edgeCache;
    }
  }

  /** Lines 203-227. */
  method Relate(s: Scale, aggregates: map<Key, Aggregate>, demand: map<int, Demand>) returns (r: map<Key, Relation>)
    requires s.Valid()
    ensures r == RelationsOf(s, aggregates, demand)
  {
    hide RelationOf, Scale.Valid;
    r := map[];
    var todo := aggregates.Keys;
    ghost var done: set<Key> := {};
    while todo != {}
      invariant todo + done == aggregates.Keys && todo !! done
      invariant forall k :: k in r <==> k in done && aggregates[k].count > 0 && k.0 in demand && k.1 in demand
      invariant forall k :: k in r ==> r[k] == RelationOf(s, k, aggregates[k], demand[k.0].demand, demand[k.1].demand)
      decreases todo
    {
      Nonempty(todo);
      var k :| k in todo;
      assert k in aggregates.Keys;
      if aggregates[k].count > 0 && k.0 in demand && k.1 in demand {
        r := r[k := RelationOf(s, k, aggregates[k], demand[k.0].demand, demand[k.1].demand)];
      }
      todo, done := todo - {k}, done + {k};
    }
    assert done == aggregates.Keys;
  }

  lemma NamedDemands(s: Scale, threads: map<int, seq<Sample>>)
    requires Named(threads)
    ensures DemandsOf(s, threads) == map t | t in threads :: DemandOf(s, threads[t])
    ensures forall t :: t in DemandsOf(s, threads) ==> Unit(DemandsOf(s, threads)[t].demand) && DemandsOf(s, threads)[t].id.tid == t
  {
    forall t | t in threads
      ensures Unit(DemandOf(s, threads[t]).demand) && DemandOf(s, threads[t]).id.tid == t
    {
      var h := threads[t];
      EwmaUnit(Pressures(h));
      assert h[|h| - 1] in h;
    }
  }

  lemma RelationsRange(s: Scale, aggregates: map<Key, Aggregate>, demands: map<int, Demand>)
    requires s.Valid()
    ensures forall k :: k in RelationsOf(s, aggregates, demands) ==> 0.0 <= RelationsOf(s, aggregates, demands)[k].score <= 100.0
  {
    forall k | k in RelationsOf(s, aggregates, demands)
      ensures 0.0 <= RelationsOf(s, aggregates, demands)[k].score <= 100.0
    {
      RelationRange(s, k, aggregates[k], demands[k.0].demand, demands[k.1].demand);
    }
  }

  lemma ExpireIs(w: Window, cutoff: nat)
    ensures Expire(w, cutoff).threads == map t | t in w.threads && Recent(w.threads[t], cutoff) != [] :: Recent(w.threads[t], cutoff)
  {
  }

  lemma EnterIs(w: Window, s: Sample)
    ensures Restarts(w.threads, s) ==>
      Enter(w, s) == Window(w.threads[s.id.tid := [s]], map k | k in w.histories && !Joins(k, s.id.tid) :: w.histories[k])
    ensures !Restarts(w.threads, s) ==> Enter(w, s) == Window(w.threads[s.id.tid := History(w.threads, s.id.tid) + [s]], w.histories)
  {
    hide Restarts;
  }
}
