/** The evidence for domains (src/domain_solver.cpp:54-75 and 201-346): relations between
families, the strongest pairs of every family, and the families and pairs that have been
convincing for long enough. */
module Evidence {
  import opened Lists
  import opened Threads
  import opened NodeChoice
  import opened Domains

  datatype Thresholds = Thresholds(
    minDemand: real,
    minInternal: real,
    minContainment: real,
    minRelative: real,
    mergeRatio: real,
    edgesPerFamily: nat,
    familyConfirmations: nat,
    domainConfirmations: nat,
    grace: nat)
  {
    predicate Valid() {
      familyConfirmations >= 1 && domainConfirmations >= 1 && grace >= 1
    }
  }

  // ----- relations between families (lines 204-227) -----

  /** `by_tid`, as far as the family of a thread is concerned. */
  function FamilyOf(threads: seq<Thread>): (r: map<int, Family>)
    ensures forall t :: t in r ==> exists th :: th in threads && th.group == r[t]
  {
    if threads == [] then map[]
    else
      var n := |threads| - 1;
      FamilyOf(threads[..n])[threads[n].id.tid := threads[n].group]
  }

  /** The families of the ends of a relation, if both threads are known. */
  function Ends(family: map<int, Family>, e: Edge): Option<Pair> {
    if e.from in family && e.to in family then Some(MinMax(family[e.from], family[e.to])) else None
  }

  function InternalOf(family: map<int, Family>, edges: seq<Edge>, f: Family): real {
    if edges == [] then 0.0
    else
      var n := |edges| - 1;
      InternalOf(family, edges[..n], f) + if Ends(family, edges[n]) == Some((f, f)) then edges[n].score else 0.0
  }

  function CrossOf(family: map<int, Family>, edges: seq<Edge>, p: Pair): real {
    if edges == [] then 0.0
    else
      var n := |edges| - 1;
      CrossOf(family, edges[..n], p) + if Ends(family, edges[n]) == Some(p) then edges[n].score else 0.0
  }

  function ExternalOf(family: map<int, Family>, edges: seq<Edge>, f: Family): real {
    if edges == [] then 0.0
    else
      var n := |edges| - 1;
      var ends := Ends(family, edges[n]);
      ExternalOf(family, edges[..n], f)
      + if ends.Some? && ends.value.0 != ends.value.1 && (ends.value.0 == f || ends.value.1 == f) then edges[n].score else 0.0
  }

  function Of<K>(m: map<K, real>, k: K): real {
    if k in m then m[k] else 0.0
  }

  /** The totals of the relations seen so far. */
  ghost predicate Weighed(family: map<int, Family>, edges: seq<Edge>,
                          internal: map<Family, real>, external: map<Family, real>, cross: map<Pair, real>) {
    && (forall f :: Of(internal, f) == InternalOf(family, edges, f))
    && (forall f :: Of(external, f) == ExternalOf(family, edges, f))
    && (forall p: Pair :: p.0 != p.1 ==> Of(cross, p) == CrossOf(family, edges, p))
    && (forall p :: p in cross <==> p.0 != p.1 && exists e :: e in edges && Ends(family, e) == Some(p))
  }

  function Add<K>(m: map<K, real>, k: K, v: real): map<K, real> {
    m[k := Of(m, k) + v]
  }

  lemma SumsMore(family: map<int, Family>, edges: seq<Edge>, e: Edge, f: Family, p: Pair)
    ensures var ends := Ends(family, e);
      && InternalOf(family, edges + [e], f) == InternalOf(family, edges, f) + (if ends == Some((f, f)) then e.score else 0.0)
      && CrossOf(family, edges + [e], p) == CrossOf(family, edges, p) + (if ends == Some(p) then e.score else 0.0)
      && ExternalOf(family, edges + [e], f) == ExternalOf(family, edges, f)
         + (if ends.Some? && ends.value.0 != ends.value.1 && (ends.value.0 == f || ends.value.1 == f) then e.score else 0.0)
  {
    var more := edges + [e];
    assert more[..|more| - 1] == edges && more[|more| - 1] == e;
    hide Ends;
  }

  lemma LinkMore(family: map<int, Family>, edges: seq<Edge>, e: Edge, p: Pair)
    ensures (exists d :: d in edges + [e] && Ends(family, d) == Some(p)) <==>
      (exists d :: d in edges && Ends(family, d) == Some(p)) || Ends(family, e) == Some(p)
  {
    hide Ends;
    var more := edges + [e];
    if exists d :: d in more && Ends(family, d) == Some(p) {
      var d :| d in more && Ends(family, d) == Some(p);
      assert d in edges || d == e;
    }
    if Ends(family, e) == Some(p) {
      assert e in more;
    }
  }

  /** The totals after one more relation. */
  lemma WeighedMore(family: map<int, Family>, edges: seq<Edge>, e: Edge,
                    internal: map<Family, real>, external: map<Family, real>, cross: map<Pair, real>,
                    internal': map<Family, real>, external': map<Family, real>, cross': map<Pair, real>)
    requires Weighed(family, edges, internal, external, cross)
    requires var ends := Ends(family, e);
      if ends.None? then internal' == internal && external' == external && cross' == cross
      else if ends.value.0 == ends.value.1 then internal' == Add(internal, ends.value.0, e.score) && external' == external && cross' == cross
      else && internal' == internal && external' == Add(Add(external, ends.value.0, e.score), ends.value.1, e.score)
           && cross' == Add(cross, ends.value, e.score)
    ensures Weighed(family, edges + [e], internal', external', cross')
  {
    hide Ends, InternalOf, ExternalOf, CrossOf;
    forall f: Family
      ensures Of(internal', f) == InternalOf(family, edges + [e], f) && Of(external', f) == ExternalOf(family, edges + [e], f)
    {
      SumsMore(family, edges, e, f, (0, 0));
    }
    forall p: Pair
      ensures p.0 != p.1 ==> Of(cross', p) == CrossOf(family, edges + [e], p)
      ensures p in cross' <==> p.0 != p.1 && exists d :: d in edges + [e] && Ends(family, d) == Some(p)
    {
      SumsMore(family, edges, e, 0, p);
      LinkMore(family, edges, e, p);
    }
  }

  /** Lines 214-227. */
  method Weigh(family: map<int, Family>, edges: seq<Edge>)
    returns (internal: map<Family, real>, external: map<Family, real>, cross: map<Pair, real>)
    ensures Weighed(family, edges, internal, external, cross)
  {
    hide Weighed, Ends;
    internal, external, cross := map[], map[], map[];
    WeighedNone(family);
    assert edges[..0] == [];
    for i := 0 to |edges|
      invariant Weighed(family, edges[..i], internal, external, cross)
    {
      var e, ends := edges[i], Ends(family, edges[i]);
      assert edges[..i + 1] == edges[..i] + [e];
      ghost var internal0, external0, cross0 := internal, external, cross;
      if ends.Some? {
        var (a, b) := ends.value;
        if a == b {
          internal := Add(internal, a, e.score);
        } else {
          external := Add(Add(external, a, e.score), b, e.score);
          cross := Add(cross, (a, b), e.score);
        }
      }
      WeighedMore(family, edges[..i], e, internal0, external0, cross0, internal, external, cross);
    }
    assert edges[..|edges|] == edges;
  }

  lemma WeighedNone(family: map<int, Family>)
    ensures Weighed(family, [], map[], map[], map[])
  {
  }

  // ----- the strongest pairs of every family (lines 54-75) -----

  predicate Incident(p: Pair, f: Family) {
    p.0 == f || p.1 == f
  }

  /** Heavier pairs first, then the smaller pair. */
  function PairKey(cross: map<Pair, real>, p: Pair): seq<real> {
    [-Of(cross, p), p.0 as real, p.1 as real]
  }

  ghost function Stronger(cross: map<Pair, real>, f: Family, p: Pair): set<Pair> {
    set q | q in cross && Incident(q, f) && LexLess(PairKey(cross, q), PairKey(cross, p))
  }

  /** Fewer than `k` pairs of the family come before this one. */
  ghost predicate Top(cross: map<Pair, real>, k: nat, f: Family, p: Pair) {
    p in cross && Incident(p, f) && |Stronger(cross, f, p)| < k
  }

  lemma PairKeyInjective(cross: map<Pair, real>, p: Pair, q: Pair)
    requires PairKey(cross, p) == PairKey(cross, q)
    ensures p == q
  {
    assert PairKey(cross, p)[1] == PairKey(cross, q)[1] && PairKey(cross, p)[2] == PairKey(cross, q)[2];
  }

  /** The pairs of one family, in any order. */
  method ListPairs(s: set<Pair>) returns (list: seq<Pair>)
    ensures Distinct(list) && forall p :: p in list <==> p in s
  {
    list := [];
    var todo := s;
    while todo != {}
      invariant todo <= s && Distinct(list) && forall p :: p in list <==> p in s && p !in todo
      decreases todo
    {
      Nonempty(todo);
      var p :| p in todo;
      todo, list := todo - {p}, list + [p];
    }
  }

  lemma {:induction false} DistinctCard(s: seq<Pair>)
    requires Distinct(s)
    ensures |(set p | p in s)| == |s|
  {
    if s == [] {
      assert (set p | p in s) == {};
    } else {
      var n := |s| - 1;
      DistinctCard(s[..n]);
      assert s == s[..n] + [s[n]];
      assert s[n] !in s[..n];
      assert (set p | p in s) == (set p | p in s[..n]) + {s[n]};
    }
  }

  /** In a sorted list without repetitions, exactly the earlier elements come before. */
  lemma RankInSorted(cross: map<Pair, real>, key: Pair -> seq<real>, f: Family, list: seq<Pair>, i: nat)
    requires Distinct(list) && SortedBy(list, key) && i < |list| && (forall p :: key(p) == PairKey(cross, p))
    requires forall p :: p in list <==> p in cross && Incident(p, f)
    ensures |Stronger(cross, f, list[i])| == i
  {
    var before := list[..i];
    forall q
      ensures q in Stronger(cross, f, list[i]) <==> q in before
    {
      EarlierIffStronger(cross, key, f, list, i, q);
    }
    assert Stronger(cross, f, list[i]) == set q | q in before;
    DistinctCard(before);
  }

  lemma EarlierIffStronger(cross: map<Pair, real>, key: Pair -> seq<real>, f: Family, list: seq<Pair>, i: nat, q: Pair)
    requires Distinct(list) && SortedBy(list, key) && i < |list| && (forall p :: key(p) == PairKey(cross, p))
    requires forall p :: p in list <==> p in cross && Incident(p, f)
    ensures q in Stronger(cross, f, list[i]) <==> q in list[..i]
  {
    hide LexLess, PairKey;
    InPrefix(list, i, q);
    if q in list {
      var j :| 0 <= j < |list| && list[j] == q;
      LexTotal(key(q), key(list[i]));
      if key(q) == key(list[i]) {
        PairKeyInjective(cross, q, list[i]);
      }
      LexIrreflexive(key(q));
      if j < i {
        assert !LexLess(key(list[i]), key(list[j]));
        assert list[..i][j] == q;
      } else if i < j {
        assert !LexLess(key(list[j]), key(list[i]));
      }
      if q in list[..i] {
        var k :| 0 <= k < i && list[..i][k] == q;
        assert list[k] == list[j];
      }
    }
  }

  lemma InPrefix(list: seq<Pair>, i: nat, q: Pair)
    requires i <= |list|
    ensures q in list[..i] ==> q in list
  {
  }

  lemma SortedPairs(list: seq<Pair>, key: Pair -> seq<real>, sorted: seq<Pair>)
    requires Distinct(list) && sorted == SortBy(list, key)
    ensures Distinct(sorted) && SortedBy(sorted, key) && forall p :: p in sorted <==> p in list
  {
    SortBySorted(list, key);
    SortKeepsDistinct(list, sorted);
    hide SortBy;
    assert multiset(sorted) == multiset(list);
    forall p: Pair
      ensures p in sorted <==> p in list
    {
      assert p in sorted <==> p in multiset(sorted);
      assert p in list <==> p in multiset(list);
    }
  }

  /** The `k` strongest pairs of one family. */
  method SelectOf(cross: map<Pair, real>, k: nat, f: Family) returns (chosen: set<Pair>)
    ensures forall p :: p in chosen <==> Top(cross, k, f, p)
  {
    hide LexLess, PairKey;
    var list := ListPairs(set p | p in cross && Incident(p, f));
    var key := (p: Pair) => PairKey(cross, p);
    var sorted := SortBy(list, key);
    SortedPairs(list, key, sorted);
    var limit := if k < |sorted| then k else |sorted|;
    chosen := set p | p in sorted[..limit];
    hide SortBy, Stronger;
    TopIsFirst(cross, key, k, f, sorted, limit);
  }

  lemma TopIsFirst(cross: map<Pair, real>, key: Pair -> seq<real>, k: nat, f: Family, list: seq<Pair>, limit: nat)
    requires Distinct(list) && SortedBy(list, key) && (forall p :: key(p) == PairKey(cross, p))
    requires forall p :: p in list <==> p in cross && Incident(p, f)
    requires limit == if k < |list| then k else |list|
    ensures forall p :: p in list[..limit] <==> Top(cross, k, f, p)
  {
    hide LexLess, PairKey, Stronger, SortedBy;
    forall p: Pair
      ensures p in list[..limit] <==> Top(cross, k, f, p)
    {
      InPrefix(list, limit, p);
      if p in list {
        var i :| 0 <= i < |list| && list[i] == p;
        RankInSorted(cross, key, f, list, i);
        if p in list[..limit] {
          var j :| 0 <= j < limit && list[..limit][j] == p;
          assert list[j] == list[i];
        }
        if i < limit {
          assert list[..limit][i] == p;
        }
      }
    }
  }

  /** `select_family_edges` (lines 54-75): the pairs that are among the `k` strongest of one of
  their families. */
  method SelectPairs(cross: map<Pair, real>, k: nat) returns (selected: set<Pair>)
    ensures forall p :: p in selected <==> Top(cross, k, p.0, p) || Top(cross, k, p.1, p)
  {
    hide Top;
    selected := {};
    var families := (set p | p in cross :: p.0) + (set p | p in cross :: p.1);
    var todo := families;
    while todo != {}
      invariant todo <= families
      invariant forall p :: p in selected <==> exists f :: f in families && f !in todo && Top(cross, k, f, p)
      decreases todo
    {
      Inhabited(todo);
      var f := Least(todo);
      var chosen := SelectOf(cross, k, f);
      ghost var before, left := selected, todo;
      todo, selected := todo - {f}, selected + chosen;
      forall p: Pair
        ensures p in selected <==> exists g :: g in families && g !in todo && Top(cross, k, g, p)
      {
        if p in before {
          var g :| g in families && g !in left && Top(cross, k, g, p);
          assert g !in todo;
        }
        if exists g :: g in families && g !in todo && Top(cross, k, g, p) {
          var g :| g in families && g !in todo && Top(cross, k, g, p);
          assert g == f || g !in left;
        }
      }
    }
    forall p: Pair
      ensures p in selected <==> Top(cross, k, p.0, p) || Top(cross, k, p.1, p)
    {
      TopEnds(cross, k, p, families);
    }
  }

  lemma TopEnds(cross: map<Pair, real>, k: nat, p: Pair, families: set<Family>)
    requires families == (set q | q in cross :: q.0) + (set q | q in cross :: q.1)
    ensures (exists f :: f in families && Top(cross, k, f, p)) <==> Top(cross, k, p.0, p) || Top(cross, k, p.1, p)
  {
    hide Stronger;
    if p in cross {
      assert p.0 in families && p.1 in families;
    }
  }

  // ----- convincing families (lines 229-268) -----

  datatype Relations = Relations(internal: map<Family, real>, external: map<Family, real>, cross: map<Pair, real>)

  function Families(threads: seq<Thread>): set<Family> {
    set th | th in threads :: th.group
  }

  function Greatest(internal: map<Family, real>, names: seq<Family>): (r: real)
    ensures r >= 0.0 && forall f :: f in names ==> Of(internal, f) <= r
  {
    if names == [] then 0.0
    else
      var n := |names| - 1;
      assert names == names[..n] + [names[n]];
      Max(Greatest(internal, names[..n]), Of(internal, names[n]))
  }

  /** Lines 243-259: enough demand, enough relation inside, and most of it inside. */
  predicate Cohesive(t: Thresholds, threads: seq<Thread>, r: Relations, greatest: real, f: Family) {
    var inside, total := Of(r.internal, f), Of(r.internal, f) + Of(r.external, f);
    && TotalDemand(InFamily(threads, f)) >= t.minDemand && inside >= t.minInternal
    && (if total > 0.0 then inside / total else 0.0) >= t.minContainment
    && (if greatest > 0.0 then inside / greatest else 0.0) >= t.minRelative
  }

  /** Lines 281-292. */
  predicate Qualifies(t: Thresholds, threads: seq<Thread>, r: Relations, p: Pair) {
    var least := Min(Of(r.internal, p.0), Of(r.internal, p.1));
    && TotalDemand(InFamily(threads, p.0)) >= t.minDemand && TotalDemand(InFamily(threads, p.1)) >= t.minDemand
    && Of(r.internal, p.0) >= t.minInternal && Of(r.internal, p.1) >= t.minInternal
    && least > 0.0 && Of(r.cross, p) / least >= t.mergeRatio
  }

  // ----- confirmations -----

  /** `family_confirmations_`, `merge_confirmations_` and `merge_pending_grace_`. */
  datatype Counters = Counters(family: map<Family, nat>, merge: map<Pair, nat>, grace: map<Pair, nat>)

  function CountOf<K>(m: map<K, nat>, k: K): nat {
    if k in m then m[k] else 0
  }

  /** What the counters stand for: the convincing families and pairs of every window. */
  datatype Log = Log(cohesive: seq<set<Family>>, qualified: seq<set<Pair>>)

  /** How many windows of grace a pair has left: it has `most` in the window in which it qualifies
  and one less in every window after that. */
  function GraceLeft(log: seq<set<Pair>>, most: nat, p: Pair): nat {
    if log == [] then 0
    else if p in log[|log| - 1] then most
    else
      var before := GraceLeft(log[..|log| - 1], most, p);
      if before > 0 then before - 1 else 0
  }

  /** A pair has grace left exactly if it qualified in one of the last `most` windows. */
  lemma {:induction false} GraceMeans(log: seq<set<Pair>>, most: nat, k: nat, p: Pair)
    requires k <= most
    ensures k < GraceLeft(log, most, p) <==> exists i :: 0 <= i < |log| && |log| - (most - k) <= i && p in log[i]
    decreases |log|
  {
    if log != [] {
      var n := |log| - 1;
      var rest := log[..n];
      if p in log[n] {
        if k < most {
          assert 0 <= n < |log| && |log| - (most - k) <= n;
        }
      } else if k < most {
        GraceMeans(rest, most, k + 1, p);
        if k + 1 < GraceLeft(rest, most, p) {
          var i :| 0 <= i < n && n - (most - k - 1) <= i && p in rest[i];
          assert p in log[i];
        }
        if exists i :: 0 <= i < |log| && |log| - (most - k) <= i && p in log[i] {
          var i :| 0 <= i < |log| && |log| - (most - k) <= i && p in log[i];
          assert p in rest[i];
        }
      } else {
        GraceMeans(rest, most, k, p);
      }
    }
  }

  ghost predicate Counted(c: Counters, log: Log, most: nat) {
    && (forall f :: CountOf(c.family, f) == Streak(log.cohesive, f))
    && (forall p :: CountOf(c.merge, p) == Streak(log.qualified, p))
    && (forall p :: CountOf(c.grace, p) == GraceLeft(log.qualified, most, p))
  }

  /** Lines 261-268, 294-301 and 324-327. */
  function NextCounters(c: Counters, cohesive: set<Family>, qualified: set<Pair>, most: nat): Counters {
    Counters(map f | f in c.family.Keys + cohesive :: if f in cohesive then CountOf(c.family, f) + 1 else 0,
             map p | p in c.merge.Keys + qualified :: if p in qualified then CountOf(c.merge, p) + 1 else 0,
             map p | p in c.grace.Keys + qualified ::
               if p in qualified then most else if CountOf(c.grace, p) > 0 then CountOf(c.grace, p) - 1 else 0)
  }

  function Logged(log: Log, cohesive: set<Family>, qualified: set<Pair>): Log {
    Log(log.cohesive + [cohesive], log.qualified + [qualified])
  }

  lemma StreakMore<T>(log: seq<set<T>>, s: set<T>, x: T)
    ensures Streak(log + [s], x) == if x in s then 1 + Streak(log, x) else 0
  {
    var more := log + [s];
    assert more[|more| - 1] == s && more[..|more| - 1] == log;
  }

  lemma GraceMore(log: seq<set<Pair>>, most: nat, s: set<Pair>, p: Pair)
    ensures GraceLeft(log + [s], most, p) ==
      if p in s then most else if GraceLeft(log, most, p) > 0 then GraceLeft(log, most, p) - 1 else 0
  {
    var more := log + [s];
    assert more[|more| - 1] == s && more[..|more| - 1] == log;
  }

  lemma CountersTrack(c: Counters, log: Log, cohesive: set<Family>, qualified: set<Pair>, most: nat)
    requires Counted(c, log, most)
    ensures Counted(NextCounters(c, cohesive, qualified, most), Logged(log, cohesive, qualified), most)
  {
    hide Streak, GraceLeft;
    var next, longer := NextCounters(c, cohesive, qualified, most), Logged(log, cohesive, qualified);
    forall f: Family
      ensures CountOf(next.family, f) == Streak(longer.cohesive, f)
    {
      StreakMore(log.cohesive, cohesive, f);
    }
    forall p: Pair
      ensures CountOf(next.merge, p) == Streak(longer.qualified, p)
      ensures CountOf(next.grace, p) == GraceLeft(longer.qualified, most, p)
    {
      StreakMore(log.qualified, qualified, p);
      GraceMore(log.qualified, most, qualified, p);
    }
  }

  // ----- anchors and seeds (lines 318-346) -----

  /** A family with a pair that qualified lately but is not confirmed yet. */
  predicate Pending(t: Thresholds, c: Counters, observed: set<Family>, f: Family) {
    exists p :: p in c.grace && c.grace[p] > 0 && CountOf(c.merge, p) < t.domainConfirmations
      && p.0 in observed && p.1 in observed && Incident(p, f)
  }

  /** The confirmed pairs, and the anchors: their families and the confirmed cohesive families
  that no pair is pending for. */
  ghost predicate Concludes(t: Thresholds, c: Counters, observed: set<Family>, seeds: seq<Pair>, anchors: set<Family>) {
    && (forall p :: p in seeds <==> p in c.merge && c.merge[p] >= t.domainConfirmations)
    && (forall f :: f in anchors <==> f in observed && Anchored(t, c, observed, seeds, f))
  }

  predicate Anchored(t: Thresholds, c: Counters, observed: set<Family>, seeds: seq<Pair>, f: Family) {
    || (exists p :: p in seeds && Incident(p, f))
    || (CountOf(c.family, f) >= t.familyConfirmations && !Pending(t, c, observed, f))
  }

  method Conclude(t: Thresholds, c: Counters, observed: set<Family>) returns (seeds: seq<Pair>, anchors: set<Family>)
    ensures Concludes(t, c, observed, seeds, anchors)
  {
    hide Anchored;
    seeds := ListPairs(set p | p in c.merge && c.merge[p] >= t.domainConfirmations);
    anchors := {};
    var todo := observed;
    while todo != {}
      invariant todo <= observed
      invariant forall f :: f in anchors <==> f in observed && f !in todo && Anchored(t, c, observed, seeds, f)
      decreases todo
    {
      Inhabited(todo);
      var f := Least(todo);
      if Anchored(t, c, observed, seeds, f) {
        anchors := anchors + {f};
      }
      todo := todo - {f};
    }
  }

  // ----- one window of evidence -----

  /** The convincing families and pairs of one window. */
  ghost predicate Convinces(t: Thresholds, threads: seq<Thread>, edges: seq<Edge>, cross: map<Pair, real>,
                            cohesive: set<Family>, qualified: set<Pair>) {
    exists r: Relations ::
      && r.cross == cross && Weighed(FamilyOf(threads), edges, r.internal, r.external, r.cross)
      && (forall f :: f in cohesive <==> f in Families(threads) && Cohesive(t, threads, r, Greatest(r.internal, NamesOf(threads)), f))
      && (forall p :: p in qualified <==>
            (Top(cross, t.edgesPerFamily, p.0, p) || Top(cross, t.edgesPerFamily, p.1, p)) && Qualifies(t, threads, r, p))
  }

  function NamesOf(threads: seq<Thread>): (r: seq<Family>)
    ensures forall f :: f in r <==> f in Families(threads)
  {
    var r := Ascending(Families(threads));
    assert forall i :: 0 <= i < |r| ==> r[i] in r;
    r
  }

  /** Lines 201-346. */
  method Gather(t: Thresholds, threads: seq<Thread>, edges: seq<Edge>, c: Counters, ghost log: Log)
    returns (c': Counters, seeds: seq<Pair>, anchors: set<Family>, cross: map<Pair, real>, ghost log': Log)
    requires t.Valid() && Counted(c, log, t.grace)
    ensures Counted(c', log', t.grace) && Concludes(t, c', Families(threads), seeds, anchors)
    ensures exists cohesive, qualified :: Convinces(t, threads, edges, cross, cohesive, qualified) && log' == Logged(log, cohesive, qualified)
    ensures anchors <= Families(threads) && forall i :: 0 <= i < |seeds| ==> seeds[i].0 in anchors && seeds[i].1 in anchors
  {
    hide Weighed, Top, Qualifies, Cohesive, Counted, NextCounters, Concludes, Greatest, NamesOf;
    var observed := Families(threads);
    var internal, external;
    internal, external, cross := Weigh(FamilyOf(threads), edges);
    var r := Relations(internal, external, cross);
    var greatest := Greatest(internal, NamesOf(threads));
    var cohesive := set f | f in observed && Cohesive(t, threads, r, greatest, f);
    var selected := SelectPairs(cross, t.edgesPerFamily);
    var qualified := set p | p in selected && Qualifies(t, threads, r, p);
    assert Convinces(t, threads, edges, cross, cohesive, qualified);
    CountersTrack(c, log, cohesive, qualified, t.grace);
    c' := NextCounters(c, cohesive, qualified, t.grace);
    log' := Logged(log, cohesive, qualified);
    seeds, anchors := Conclude(t, c', observed);
    forall p | p in qualified
      ensures p.0 in observed && p.1 in observed
    {
      PairObserved(threads, edges, r, t.edgesPerFamily, p);
    }
    SeedsAnchored(t, c', log, cohesive, qualified, observed, seeds, anchors);
  }

  lemma PairObserved(threads: seq<Thread>, edges: seq<Edge>, r: Relations, k: nat, p: Pair)
    requires Weighed(FamilyOf(threads), edges, r.internal, r.external, r.cross)
    requires Top(r.cross, k, p.0, p) || Top(r.cross, k, p.1, p)
    ensures p.0 in Families(threads) && p.1 in Families(threads)
  {
    hide Stronger, InternalOf, ExternalOf, CrossOf;
    assert p in r.cross;
    var e :| e in edges && Ends(FamilyOf(threads), e) == Some(p);
  }

  /** The families of a confirmed pair are anchors. */
  lemma SeedsAnchored(t: Thresholds, c: Counters, log: Log, cohesive: set<Family>, qualified: set<Pair>, observed: set<Family>,
                      seeds: seq<Pair>, anchors: set<Family>)
    requires t.Valid() && Counted(c, Logged(log, cohesive, qualified), t.grace) && Concludes(t, c, observed, seeds, anchors)
    requires forall p :: p in qualified ==> p.0 in observed && p.1 in observed
    ensures anchors <= observed && forall i :: 0 <= i < |seeds| ==> seeds[i].0 in anchors && seeds[i].1 in anchors
  {
    hide Streak, GraceLeft, Pending;
    forall i | 0 <= i < |seeds|
      ensures seeds[i].0 in anchors && seeds[i].1 in anchors
    {
      var p := seeds[i];
      assert p in seeds;
      StreakMore(log.qualified, qualified, p);
      assert CountOf(c.merge, p) == Streak(Logged(log, cohesive, qualified).qualified, p);
      assert p in qualified;
      assert Incident(p, p.0) && Incident(p, p.1);
    }
  }

  /** It was in each of the last `k` sets of a log. */
  predicate InLast<T(==)>(log: seq<set<T>>, k: nat, x: T) {
    k <= |log| && forall i :: |log| - k <= i < |log| ==> x in log[i]
  }

  /** It was in one of the last `k` sets of a log. */
  predicate Lately<T(==)>(log: seq<set<T>>, k: nat, x: T) {
    exists i :: 0 <= i < |log| && |log| - k <= i && x in log[i]
  }

  /** A pair of the family, with both families present, qualified lately but is not confirmed. */
  ghost predicate Awaits(t: Thresholds, log: Log, observed: set<Family>, f: Family) {
    exists p: Pair ::
      && Incident(p, f) && p.0 in observed && p.1 in observed
      && Lately(log.qualified, t.grace, p) && !InLast(log.qualified, t.domainConfirmations, p)
  }

  lemma PairMeans(t: Thresholds, c: Counters, log: Log, observed: set<Family>, seeds: seq<Pair>, anchors: set<Family>, p: Pair)
    requires t.Valid() && Counted(c, log, t.grace) && Concludes(t, c, observed, seeds, anchors)
    ensures p in seeds <==> InLast(log.qualified, t.domainConfirmations, p)
    ensures CountOf(c.merge, p) < t.domainConfirmations <==> !InLast(log.qualified, t.domainConfirmations, p)
    ensures p in c.grace && c.grace[p] > 0 <==> Lately(log.qualified, t.grace, p)
  {
    hide Streak, GraceLeft, Anchored;
    assert CountOf(c.merge, p) == Streak(log.qualified, p);
    assert CountOf(c.grace, p) == GraceLeft(log.qualified, t.grace, p);
    StreakMeans(log.qualified, p, t.domainConfirmations);
    GraceMeans(log.qualified, t.grace, 0, p);
  }

  /** A pair is confirmed exactly when it qualified in each of the last windows.  A family is an
  anchor exactly when it is present and in a confirmed pair, or was cohesive in each of the last
  windows while none of its pairs qualified lately without being confirmed. */
  lemma EvidenceMeans(t: Thresholds, c: Counters, log: Log, observed: set<Family>, seeds: seq<Pair>, anchors: set<Family>, f: Family)
    requires t.Valid() && Counted(c, log, t.grace) && Concludes(t, c, observed, seeds, anchors)
    ensures forall p :: p in seeds <==> InLast(log.qualified, t.domainConfirmations, p)
    ensures f in anchors <==>
      && f in observed
      && (|| (exists p: Pair :: Incident(p, f) && InLast(log.qualified, t.domainConfirmations, p))
          || (InLast(log.cohesive, t.familyConfirmations, f) && !Awaits(t, log, observed, f)))
  {
    hide Streak, GraceLeft, InLast, Lately, Counted;
    forall p
      ensures p in seeds <==> InLast(log.qualified, t.domainConfirmations, p)
      ensures CountOf(c.merge, p) < t.domainConfirmations <==> !InLast(log.qualified, t.domainConfirmations, p)
      ensures p in c.grace && c.grace[p] > 0 <==> Lately(log.qualified, t.grace, p)
    {
      PairMeans(t, c, log, observed, seeds, anchors, p);
    }
    FamilyMeans(t, c, log, f);
    PendingMeans(t, c, log, observed, f);
    hide CountOf, Pending, Awaits;
  }

  lemma FamilyMeans(t: Thresholds, c: Counters, log: Log, f: Family)
    requires Counted(c, log, t.grace)
    ensures CountOf(c.family, f) >= t.familyConfirmations <==> InLast(log.cohesive, t.familyConfirmations, f)
  {
    hide Streak, GraceLeft;
    assert CountOf(c.family, f) == Streak(log.cohesive, f);
    StreakMeans(log.cohesive, f, t.familyConfirmations);
  }

  lemma PendingMeans(t: Thresholds, c: Counters, log: Log, observed: set<Family>, f: Family)
    requires forall p :: CountOf(c.merge, p) < t.domainConfirmations <==> !InLast(log.qualified, t.domainConfirmations, p)
    requires forall p :: p in c.grace && c.grace[p] > 0 <==> Lately(log.qualified, t.grace, p)
    ensures Pending(t, c, observed, f) <==> Awaits(t, log, observed, f)
  {
    hide InLast, Lately, CountOf;
    if Pending(t, c, observed, f) {
      var p :| p in c.grace && c.grace[p] > 0 && CountOf(c.merge, p) < t.domainConfirmations
        && p.0 in observed && p.1 in observed && Incident(p, f);
      assert Lately(log.qualified, t.grace, p);
    }
    if Awaits(t, log, observed, f) {
      var p: Pair :| Incident(p, f) && p.0 in observed && p.1 in observed
        && Lately(log.qualified, t.grace, p) && !InLast(log.qualified, t.domainConfirmations, p);
      assert p in c.grace && c.grace[p] > 0;
    }
  }
}
