/** Which threads are managed (`select_managed_threads`, src/solver.cpp:366-482): survivors of
the last window, growth around them, and exchanges that pull more relation inside. */
module ManagedThreads {
  import opened Lists
  import opened Counting
  import opened Threads

  /** `hot` are the hotspot relations between the threads, `previous` the threads managed so far. */
  datatype Choice = Choice(threads: map<int, Thread>, hot: seq<Edge>, previous: set<int>, limit: nat, band: nat)
  {
    predicate Valid() {
      && (forall t :: t in threads ==> threads[t].id.tid == t && t >= 0)
      && (forall i :: 0 <= i < |hot| ==> hot[i].from != hot[i].to && hot[i].from in threads && hot[i].to in threads)
      && limit <= |threads|
    }
  }

  // ----- weights -----

  predicate Within(e: Edge, s: set<int>) {
    e.from in s && e.to in s
  }

  /** Relation weight inside a set of threads. */
  function Internal(hot: seq<Edge>, s: set<int>): real {
    if hot == [] then 0.0
    else
      var n := |hot| - 1;
      Internal(hot[..n], s) + if Within(hot[n], s) then hot[n].score else 0.0
  }

  /** The relation joins the thread to a member of the set. */
  predicate Pulls(e: Edge, t: int, s: set<int>) {
    (e.from == t && e.to in s) || (e.to == t && e.from in s)
  }

  function Pull(hot: seq<Edge>, t: int, s: set<int>): real {
    if hot == [] then 0.0
    else
      var n := |hot| - 1;
      Pull(hot[..n], t, s) + if Pulls(hot[n], t, s) then hot[n].score else 0.0
  }

  function PullCount(hot: seq<Edge>, t: int, s: set<int>): nat {
    if hot == [] then 0
    else
      var n := |hot| - 1;
      PullCount(hot[..n], t, s) + if Pulls(hot[n], t, s) then 1 else 0
  }

  /** Weight and number of a thread's relations into a set. */
  method PullOf(hot: seq<Edge>, t: int, s: set<int>) returns (weight: real, count: nat)
    ensures weight == Pull(hot, t, s) && count == PullCount(hot, t, s)
  {
    weight, count := 0.0, 0;
    for i := 0 to |hot|
      invariant weight == Pull(hot[..i], t, s) && count == PullCount(hot[..i], t, s)
    {
      hide Pulls;
      assert hot[..i + 1][..i] == hot[..i];
      if Pulls(hot[i], t, s) {
        weight, count := weight + hot[i].score, count + 1;
      }
    }
    assert hot[..|hot|] == hot;
  }

  /** What an exchange does to the weight inside. */
  lemma {:induction false} ExchangeWeight(hot: seq<Edge>, s: set<int>, leave: int, enter: int)
    requires leave in s && enter !in s
    requires forall i :: 0 <= i < |hot| ==> hot[i].from != hot[i].to
    ensures Internal(hot, s - {leave} + {enter}) == Internal(hot, s) - Pull(hot, leave, s) + Pull(hot, enter, s - {leave})
  {
    if hot != [] {
      var n := |hot| - 1;
      ExchangeWeight(hot[..n], s, leave, enter);
      hide Internal, Pull;
      var e, next := hot[n], s - {leave} + {enter};
      EdgeExchange(e, s, leave, enter);
    }
    hide Within, Pulls;
  }

  lemma EdgeExchange(e: Edge, s: set<int>, leave: int, enter: int)
    requires leave in s && enter !in s && e.from != e.to
    ensures (if Within(e, s - {leave} + {enter}) then e.score else 0.0) ==
      (if Within(e, s) then e.score else 0.0) - (if Pulls(e, leave, s) then e.score else 0.0)
      + (if Pulls(e, enter, s - {leave}) then e.score else 0.0)
  {
  }

  // ----- ranking -----

  function Degree(hot: seq<Edge>, t: int): real {
    if hot == [] then 0.0
    else
      var n := |hot| - 1;
      Degree(hot[..n], t) + if hot[n].from == t || hot[n].to == t then hot[n].score else 0.0
  }

  function DemandOf(c: Choice, t: int): real {
    if t in c.threads then c.threads[t].demand else 0.0
  }

  function IdOf(c: Choice, t: int): seq<real> {
    if t in c.threads then IdentityKey(c.threads[t].id) else []
  }

  /** Lines 385-392: by degree, then demand, then identity. */
  method Rank(c: Choice) returns (ranked: seq<int>)
    ensures Distinct(ranked) && |ranked| == |c.threads| && forall t :: t in ranked <==> t in c.threads
    ensures SortedBy(ranked, t => [-Degree(c.hot, t), -DemandOf(c, t)] + IdOf(c, t))
  {
    var list := Ascending(c.threads.Keys);
    var key := t => [-Degree(c.hot, t), -DemandOf(c, t)] + IdOf(c, t);
    ranked := SortBy(list, key);
    SortBySorted(list, key);
    SameElements(list, ranked);
    SortKeepsDistinct(list, ranked);
    hide Ascending, SortBy;
    assert |c.threads.Keys| == |c.threads|;
  }

  // ----- survivors -----

  /** The first threads of the band that were managed before, up to the limit. */
  ghost predicate Retained(c: Choice, ranked: seq<int>, kept: set<int>, cut: nat) {
    && cut <= |ranked| && cut <= c.band && |kept| <= c.limit
    && (forall t :: t in kept <==> t in ranked[..cut] && t in c.previous)
    && (|kept| == c.limit || cut == c.band || cut == |ranked|)
  }

  /** Lines 397-400. */
  method Retain(c: Choice, ranked: seq<int>) returns (kept: set<int>, cut: nat)
    requires Distinct(ranked)
    ensures Retained(c, ranked, kept, cut)
  {
    kept, cut := {}, 0;
    while cut < |ranked| && cut < c.band && |kept| < c.limit
      invariant cut <= |ranked| && cut <= c.band && |kept| <= c.limit
      invariant forall t :: t in kept <==> t in ranked[..cut] && t in c.previous
    {
      var t := ranked[cut];
      assert ranked[..cut + 1] == ranked[..cut] + [t];
      assert t !in ranked[..cut];
      if t in c.previous {
        kept := kept + {t};
      }
      cut := cut + 1;
    }
  }

  /** The two threads of the strongest relation; of equally strong ones, of that with the lowest ids. */
  ghost predicate IsSeed(c: Choice, s: set<int>) {
    exists i :: 0 <= i < |c.hot| && s == {c.hot[i].from, c.hot[i].to}
      && forall j :: 0 <= j < |c.hot| ==> !LexLess(SeedKey(c.hot[i]), SeedKey(c.hot[j]))
  }

  /** Lines 402-412: without survivors, the strongest relation starts the selection. */
  method Seed(c: Choice) returns (s: set<int>)
    requires c.Valid() && c.limit >= 2 && c.hot != []
    ensures s <= c.threads.Keys && |s| == 2 && IsSeed(c, s)
  {
    var best := 0;
    LexIrreflexive(SeedKey(c.hot[0]));
    for i := 1 to |c.hot|
      invariant 0 <= best < i && forall j :: 0 <= j < i ==> !LexLess(SeedKey(c.hot[best]), SeedKey(c.hot[j]))
    {
      hide SeedKey, LexLess;
      if LexLess(SeedKey(c.hot[best]), SeedKey(c.hot[i])) {
        forall j | 0 <= j < i
          ensures !LexLess(SeedKey(c.hot[i]), SeedKey(c.hot[j]))
        {
          LexAbove(SeedKey(c.hot[best]), SeedKey(c.hot[i]), SeedKey(c.hot[j]));
        }
        LexIrreflexive(SeedKey(c.hot[i]));
        best := i;
      }
    }
    var e := c.hot[best];
    s := {e.from, e.to};
    assert s - {e.from} == {e.to};
  }

  function SeedKey(e: Edge): seq<real> {
    [e.score, -(if e.from < e.to then e.from else e.to) as real, -(if e.from < e.to then e.to else e.from) as real]
  }

  // ----- growth -----

  function GrowKey(c: Choice, gain: real, count: nat, t: int): seq<real> {
    [gain, count as real, Degree(c.hot, t), DemandOf(c, t)] + IdOf(c, t)
  }

  function OutsiderKey(c: Choice, s: set<int>, t: int): seq<real> {
    GrowKey(c, Pull(c.hot, t, s), PullCount(c.hot, t, s), t)
  }

  /** By weight into the set, number of relations into it, degree, demand and identity. */
  ghost predicate IsBestOutsider(c: Choice, s: set<int>, t: int) {
    && t in c.threads && t !in s
    && (forall u :: u in c.threads && u !in s ==> !LexLess(OutsiderKey(c, s, t), OutsiderKey(c, s, u)))
  }

  /** Lines 419-437: the outsider with the strongest pull into the selection. */
  method BestOutsider(c: Choice, ranked: seq<int>, s: set<int>) returns (best: Option<int>)
    requires forall t :: t in ranked <==> t in c.threads
    ensures best.None? <==> forall t :: t in ranked ==> t in s
    ensures best.Some? ==> IsBestOutsider(c, s, best.value)
  {
    hide OutsiderKey, LexLess;
    best := None;
    for i := 0 to |ranked|
      invariant best.None? <==> forall j :: 0 <= j < i ==> ranked[j] in s
      invariant best.Some? ==> best.value in ranked && best.value !in s
      invariant best.Some? ==> forall j :: 0 <= j < i && ranked[j] !in s ==>
        !LexLess(OutsiderKey(c, s, best.value), OutsiderKey(c, s, ranked[j]))
    {
      var t := ranked[i];
      if t !in s {
        LexIrreflexive(OutsiderKey(c, s, t));
        var better := best.None?;
        if best.Some? {
          better := Above(c, s, best.value, t);
        }
        if better {
          if best.Some? {
            forall j | 0 <= j < i && ranked[j] !in s
              ensures !LexLess(OutsiderKey(c, s, t), OutsiderKey(c, s, ranked[j]))
            {
              LexAbove(OutsiderKey(c, s, best.value), OutsiderKey(c, s, t), OutsiderKey(c, s, ranked[j]));
            }
          }
          best := Some(t);
        }
      }
    }
  }

  method Above(c: Choice, s: set<int>, a: int, b: int) returns (r: bool)
    ensures r <==> LexLess(OutsiderKey(c, s, a), OutsiderKey(c, s, b))
  {
    hide LexLess, GrowKey;
    var gainA, countA := PullOf(c.hot, a, s);
    var gainB, countB := PullOf(c.hot, b, s);
    r := LexLess(GrowKey(c, gainA, countA, a), GrowKey(c, gainB, countB, b));
  }

  /** Below the limit somebody is still outside, so the growth never stops early (line 438). */
  lemma SomeOutsider(c: Choice, s: set<int>)
    requires s <= c.threads.Keys && |s| < |c.threads|
    ensures exists t :: t in c.threads && t !in s
  {
    var rest := c.threads.Keys - s;
    assert c.threads.Keys == s + rest && |c.threads.Keys| == |c.threads|;
    Inhabited(rest);
    var t :| t in rest;
    assert t in c.threads && t !in s;
  }

  function AsSet(added: seq<int>): set<int> {
    set t | t in added
  }

  /** The selection grew by one best outsider after the other. */
  ghost predicate Grown(c: Choice, start: set<int>, added: seq<int>, s: set<int>) {
    && s == start + AsSet(added)
    && (forall i :: 0 <= i < |added| ==> IsBestOutsider(c, start + AsSet(added[..i]), added[i]))
  }

  lemma AsSetMore(start: set<int>, added: seq<int>, t: int)
    ensures start + AsSet(added + [t]) == start + AsSet(added) + {t}
  {
    forall u
      ensures u in start + AsSet(added + [t]) <==> u in start + AsSet(added) + {t}
    {
    }
  }

  lemma GrownMore(c: Choice, start: set<int>, added: seq<int>, s: set<int>, t: int)
    requires Grown(c, start, added, s) && IsBestOutsider(c, s, t)
    ensures Grown(c, start, added + [t], s + {t})
  {
    hide IsBestOutsider, AsSet;
    var more := added + [t];
    AsSetMore(start, added, t);
    forall i | 0 <= i < |more|
      ensures IsBestOutsider(c, start + AsSet(more[..i]), more[i])
    {
      if i < |added| {
        assert more[..i] == added[..i];
      } else {
        assert more[..i] == added;
      }
    }
  }

  lemma GrownNot(c: Choice, start: set<int>)
    ensures Grown(c, start, [], start)
  {
    assert AsSet([]) == {};
  }

  /** Lines 418-440. */
  method Grow(c: Choice, ranked: seq<int>, start: set<int>) returns (s: set<int>, ghost added: seq<int>)
    requires c.Valid() && (forall t :: t in ranked <==> t in c.threads) && start <= c.threads.Keys && |start| <= c.limit
    ensures start <= s <= c.threads.Keys && |s| == c.limit
    ensures Grown(c, start, added, s)
  {
    s, added := start, [];
    GrownNot(c, start);
    while |s| < c.limit
      invariant start <= s <= c.threads.Keys && |s| <= c.limit && Grown(c, start, added, s)
      decreases c.limit - |s|
    {
      hide Grown, OutsiderKey, LexLess;
      SomeOutsider(c, s);
      var best := BestOutsider(c, ranked, s);
      GrownMore(c, start, added, s, best.value);
      s, added := s + {best.value}, added + [best.value];
    }
  }

  // ----- exchanges -----

  ghost predicate Improves(c: Choice, s: set<int>, leave: int, enter: int) {
    && leave in s && leave !in c.previous && enter !in s && enter in c.threads
    && Internal(c.hot, s - {leave} + {enter}) > Internal(c.hot, s) + EPS
  }

  function SwapKey(c: Choice, gain: real, leave: int, enter: int): seq<real> {
    [gain, Degree(c.hot, enter), DemandOf(c, enter)] + IdOf(c, enter) + IdOf(c, leave)
  }

  /** What an exchange adds to the weight inside comes first, then degree and demand of the thread
  that enters, then the identities. */
  function ExchangeKey(c: Choice, s: set<int>, leave: int, enter: int): seq<real> {
    SwapKey(c, Internal(c.hot, s - {leave} + {enter}) - Internal(c.hot, s), leave, enter)
  }

  /** No exchange of the first members for anybody has a greater key. */
  ghost predicate Leads(c: Choice, s: set<int>, found: Option<(int, int)>, leave: int, enter: int) {
    Improves(c, s, leave, enter) ==>
      found.Some? && !LexLess(ExchangeKey(c, s, found.value.0, found.value.1), ExchangeKey(c, s, leave, enter))
  }

  lemma LeadsOver(c: Choice, s: set<int>, a: Option<(int, int)>, b: (int, int), leave: int, enter: int)
    requires Leads(c, s, a, leave, enter)
    requires a.Some? ==> LexLess(ExchangeKey(c, s, a.value.0, a.value.1), ExchangeKey(c, s, b.0, b.1))
    ensures Leads(c, s, Some(b), leave, enter)
  {
    hide ExchangeKey, LexLess, Improves;
    if Improves(c, s, leave, enter) {
      LexAbove(ExchangeKey(c, s, a.value.0, a.value.1), ExchangeKey(c, s, b.0, b.1), ExchangeKey(c, s, leave, enter));
    }
  }

  lemma LeadsItself(c: Choice, s: set<int>, b: (int, int))
    ensures Leads(c, s, Some(b), b.0, b.1)
  {
    hide ExchangeKey, LexLess, Improves;
    LexIrreflexive(ExchangeKey(c, s, b.0, b.1));
  }

  /** One exchange considered. */
  method Consider(c: Choice, s: set<int>, found: Option<(int, int)>, leave: int, enter: int) returns (next: Option<(int, int)>)
    requires c.Valid() && leave in s && leave !in c.previous && enter in c.threads
    requires found.Some? ==> Improves(c, s, found.value.0, found.value.1)
    ensures next.Some? ==> Improves(c, s, next.value.0, next.value.1)
    ensures Leads(c, s, next, leave, enter)
    ensures forall l, e :: Leads(c, s, found, l, e) ==> Leads(c, s, next, l, e)
  {
    next := found;
    if enter in s {
      return;
    }
    var loss, _ := PullOf(c.hot, leave, s);
    var gain, _ := PullOf(c.hot, enter, s - {leave});
    ExchangeWeight(c.hot, s, leave, enter);
    hide Pull, Degree, Internal, SwapKey, Leads;
    if gain - loss <= EPS {
      NoLead(c, s, found, leave, enter);
      return;
    }
    var key := SwapKey(c, gain - loss, leave, enter);
    assert key == ExchangeKey(c, s, leave, enter);
    var greater := found.None?;
    if found.Some? {
      greater := Greater(c, s, found.value, (leave, enter));
      if !greater {
        LeadsAlready(c, s, found, leave, enter);
      }
    }
    if greater {
      next := Some((leave, enter));
      LeadsItself(c, s, (leave, enter));
      forall l, e | Leads(c, s, found, l, e)
        ensures Leads(c, s, next, l, e)
      {
        LeadsOver(c, s, found, (leave, enter), l, e);
      }
    }
  }

  lemma NoLead(c: Choice, s: set<int>, found: Option<(int, int)>, leave: int, enter: int)
    requires !Improves(c, s, leave, enter)
    ensures Leads(c, s, found, leave, enter)
  {
    hide Improves;
  }

  lemma LeadsAlready(c: Choice, s: set<int>, found: Option<(int, int)>, leave: int, enter: int)
    requires found.Some? && !LexLess(ExchangeKey(c, s, found.value.0, found.value.1), ExchangeKey(c, s, leave, enter))
    ensures Leads(c, s, found, leave, enter)
  {
    hide ExchangeKey, LexLess, Improves;
  }

  method Greater(c: Choice, s: set<int>, a: (int, int), b: (int, int)) returns (r: bool)
    requires c.Valid() && Improves(c, s, a.0, a.1) && Improves(c, s, b.0, b.1)
    ensures r <==> LexLess(ExchangeKey(c, s, a.0, a.1), ExchangeKey(c, s, b.0, b.1))
  {
    hide LexLess, SwapKey;
    var lossA, _ := PullOf(c.hot, a.0, s);
    var gainA, _ := PullOf(c.hot, a.1, s - {a.0});
    var lossB, _ := PullOf(c.hot, b.0, s);
    var gainB, _ := PullOf(c.hot, b.1, s - {b.0});
    ExchangeWeight(c.hot, s, a.0, a.1);
    ExchangeWeight(c.hot, s, b.0, b.1);
    hide Internal, Pull;
    r := LexLess(SwapKey(c, gainA - lossA, a.0, a.1), SwapKey(c, gainB - lossB, b.0, b.1));
  }

  /** Lines 445-473: the best exchange of a newcomer for an outsider, if any improves. */
  method BestExchange(c: Choice, ranked: seq<int>, s: set<int>) returns (found: Option<(int, int)>)
    requires c.Valid() && (forall t :: t in ranked <==> t in c.threads)
    ensures found.Some? ==> Improves(c, s, found.value.0, found.value.1)
    ensures forall leave, enter :: Leads(c, s, found, leave, enter)
  {
    hide Leads, Improves;
    found := None;
    var members := Ascending(s);
    hide Ascending;
    for i := 0 to |members|
      invariant found.Some? ==> Improves(c, s, found.value.0, found.value.1)
      invariant forall k, enter :: 0 <= k < i ==> Leads(c, s, found, members[k], enter)
    {
      var leave := members[i];
      assert leave in members;
      if leave in c.previous {
        forall enter
          ensures Leads(c, s, found, leave, enter)
        {
          StaysIn(c, s, found, leave, enter);
        }
        continue;
      }
      for j := 0 to |ranked|
        invariant found.Some? ==> Improves(c, s, found.value.0, found.value.1)
        invariant forall k, enter :: 0 <= k < i ==> Leads(c, s, found, members[k], enter)
        invariant forall k :: 0 <= k < j ==> Leads(c, s, found, leave, ranked[k])
      {
        var enter := ranked[j];
        assert enter in ranked;
        found := Consider(c, s, found, leave, enter);
      }
      forall enter
        ensures Leads(c, s, found, leave, enter)
      {
        if enter in c.threads {
          var k :| 0 <= k < |ranked| && ranked[k] == enter;
        } else {
          StaysIn(c, s, found, leave, enter);
        }
      }
    }
    forall leave, enter
      ensures Leads(c, s, found, leave, enter)
    {
      if leave in s {
        var k :| 0 <= k < |members| && members[k] == leave;
      } else {
        StaysIn(c, s, found, leave, enter);
      }
    }
  }

  lemma StaysIn(c: Choice, s: set<int>, found: Option<(int, int)>, leave: int, enter: int)
    requires leave !in s || leave in c.previous || enter !in c.threads
    ensures Leads(c, s, found, leave, enter)
  {
  }

  lemma NothingLeads(c: Choice, s: set<int>)
    requires forall leave, enter :: Leads(c, s, None, leave, enter)
    ensures forall leave, enter :: !Improves(c, s, leave, enter)
  {
    hide Improves;
    forall leave, enter
      ensures !Improves(c, s, leave, enter)
    {
      assert Leads(c, s, None, leave, enter);
    }
  }

  /** Lines 444-477: every exchange raises the weight inside and keeps the survivors. */
  method Exchange(c: Choice, ranked: seq<int>, start: set<int>) returns (s: set<int>, exchanges: nat)
    requires c.Valid() && (forall t :: t in ranked <==> t in c.threads) && start <= c.threads.Keys
    ensures s <= c.threads.Keys && |s| == |start| && start * c.previous <= s
    ensures Internal(c.hot, s) >= Internal(c.hot, start) + exchanges as real * EPS && (exchanges > 0 ==> Internal(c.hot, s) > Internal(c.hot, start))
    ensures exchanges == c.limit || forall leave, enter :: !Improves(c, s, leave, enter)
  {
    hide Internal, Leads;
    s, exchanges := start, 0;
    while exchanges < c.limit
      invariant s <= c.threads.Keys && |s| == |start| && start * c.previous <= s && exchanges <= c.limit
      invariant Internal(c.hot, s) >= Internal(c.hot, start) + exchanges as real * EPS
      invariant exchanges > 0 ==> Internal(c.hot, s) > Internal(c.hot, start)
      decreases c.limit - exchanges
    {
      var found := BestExchange(c, ranked, s);
      if found.None? {
        NothingLeads(c, s);
        return;
      }
      var (leave, enter) := found.value;
      assert |s - {leave}| == |s| - 1;
      assert (exchanges + 1) as real * EPS == exchanges as real * EPS + EPS;
      s := s - {leave} + {enter};
      exchanges := exchanges + 1;
    }
  }

  /** How a selection came about: survivors or a seed, growth by best outsiders, then exchanges that
  each raise the weight inside; no improving exchange is left unless `limit` of them were made. */
  ghost predicate Selected(c: Choice, kept: set<int>, start: set<int>, added: seq<int>, grown: set<int>, s: set<int>, exchanges: nat) {
    && (if kept == {} && c.limit >= 2 && c.hot != [] then IsSeed(c, start) else start == kept)
    && Grown(c, start, added, grown)
    && Internal(c.hot, s) >= Internal(c.hot, grown) + exchanges as real * EPS
    && (exchanges == c.limit || forall leave, enter :: !Improves(c, s, leave, enter))
  }

  /** The whole selection: exactly `limit` threads, all survivors among them. */
  method SelectManaged(c: Choice)
    returns (s: set<int>, ghost ranked: seq<int>, ghost kept: set<int>, ghost cut: nat,
             ghost start: set<int>, ghost added: seq<int>, ghost grown: set<int>, ghost exchanges: nat)
    requires c.Valid()
    ensures s <= c.threads.Keys && |s| == c.limit
    ensures Distinct(ranked) && (forall t :: t in ranked <==> t in c.threads)
    ensures SortedBy(ranked, t => [-Degree(c.hot, t), -DemandOf(c, t)] + IdOf(c, t))
    ensures Retained(c, ranked, kept, cut) && kept <= s && Selected(c, kept, start, added, grown, s, exchanges)
  {
    hide Retained, SortedBy, Distinct, Internal, Grown, IsSeed, Improves;
    var order := Rank(c);
    var survivors, end := Retain(c, order);
    ranked, kept, cut := order, survivors, end;
    RetainedIn(c, order, survivors, end);
    var first := survivors;
    if survivors == {} && c.limit >= 2 && c.hot != [] {
      first := Seed(c);
    }
    var all;
    all, added := Grow(c, order, first);
    start, grown := first, all;
    var count;
    s, count := Exchange(c, order, all);
    exchanges := count;
    assert kept <= grown * c.previous;
  }

  lemma RetainedIn(c: Choice, ranked: seq<int>, kept: set<int>, cut: nat)
    requires Retained(c, ranked, kept, cut) && forall t :: t in ranked <==> t in c.threads
    ensures kept <= c.threads.Keys && kept <= c.previous && |kept| <= c.limit
  {
    forall t | t in kept
      ensures t in c.threads.Keys && t in c.previous
    {
      assert t in ranked[..cut];
      assert t in ranked;
    }
  }

  function ByTid(threads: seq<Thread>): map<int, Thread> {
    if threads == [] then map[]
    else ByTid(threads[..|threads| - 1])[threads[|threads| - 1].id.tid := threads[|threads| - 1]]
  }

  lemma {:induction false} ByTidHas(threads: seq<Thread>, t: int)
    ensures t in ByTid(threads) <==> exists i :: 0 <= i < |threads| && threads[i].id.tid == t
    ensures t in ByTid(threads) ==> ByTid(threads)[t].id.tid == t
  {
    if threads != [] {
      var n := |threads| - 1;
      var rest, last := threads[..n], threads[n];
      ByTidHas(rest, t);
      if t in ByTid(rest) {
        var i :| 0 <= i < n && rest[i].id.tid == t;
        assert threads[i].id.tid == t;
      }
      if exists i :: 0 <= i < |threads| && threads[i].id.tid == t {
        var i :| 0 <= i < |threads| && threads[i].id.tid == t;
        assert i < n ==> rest[i].id.tid == t;
      }
    }
  }

  lemma {:induction false} ByTidSize(threads: seq<Thread>)
    requires UniqueTids(threads)
    ensures |ByTid(threads)| == |threads|
  {
    if threads != [] {
      var n := |threads| - 1;
      var rest, last := threads[..n], threads[n];
      ByTidSize(rest);
      ByTidHas(rest, last.id.tid);
      var small, big := ByTid(rest), ByTid(threads);
      assert big.Keys == small.Keys + {last.id.tid};
      assert |big| == |big.Keys| && |small| == |small.Keys|;
    }
  }

  lemma ByTidIs(threads: seq<Thread>)
    requires UniqueTids(threads)
    ensures |ByTid(threads)| == |threads|
    ensures forall t :: t in ByTid(threads) <==> exists i :: 0 <= i < |threads| && threads[i].id.tid == t
    ensures forall t :: t in ByTid(threads) ==> ByTid(threads)[t].id.tid == t
  {
    hide ByTid;
    ByTidSize(threads);
    forall t
      ensures t in ByTid(threads) <==> exists i :: 0 <= i < |threads| && threads[i].id.tid == t
      ensures t in ByTid(threads) ==> ByTid(threads)[t].id.tid == t
    {
      ByTidHas(threads, t);
    }
  }

  /** The threads of a list whose ids are in a set, in order. */
  function Filtered(threads: seq<Thread>, s: set<int>): seq<Thread> {
    if threads == [] then []
    else
      var n := |threads| - 1;
      Filtered(threads[..n], s) + if threads[n].id.tid in s then [threads[n]] else []
  }

  lemma {:induction false} FilteredSize(threads: seq<Thread>, s: set<int>)
    requires UniqueTids(threads) && forall t :: t in s ==> t in ByTid(threads)
    ensures |Filtered(threads, s)| == |s|
  {
    if threads == [] {
      Inhabited(s);
    } else {
      var n := |threads| - 1;
      var rest, last := threads[..n], threads[n];
      ByTidIs(rest);
      assert last.id.tid !in ByTid(rest);
      CardWithout(s, last.id.tid);
      FilteredSize(rest, s - {last.id.tid});
      FilteredSame(rest, s, last.id.tid);
    }
  }

  lemma {:induction false} FilteredSame(threads: seq<Thread>, s: set<int>, t: int)
    requires forall i :: 0 <= i < |threads| ==> threads[i].id.tid != t
    ensures Filtered(threads, s - {t}) == Filtered(threads, s)
  {
    if threads != [] {
      FilteredSame(threads[..|threads| - 1], s, t);
    }
  }

  /** Lines 393-396: the limit, widened by the hysteresis ratio. */
  function Band(limit: nat, ratio: real): nat {
    var b := Ceil(limit as real * (1.0 + ratio));
    if b < 0 then 0 else b
  }

  /** `select_managed_threads` (lines 366-482).  The selection has exactly the configured size and
  holds every thread that was managed before and still ranks within the widened limit, as far
  as the limit allows. */
  method SelectManagedThreads(threads: seq<Thread>, hot: seq<Edge>, previous: set<int>, maximum: int, ratio: real)
    returns (r: seq<Thread>, ghost s: set<int>, ghost ranked: seq<int>, ghost kept: set<int>, ghost cut: nat,
             ghost start: set<int>, ghost added: seq<int>, ghost grown: set<int>, ghost exchanges: nat)
    requires UniqueTids(threads) && forall i :: 0 <= i < |threads| ==> threads[i].id.tid >= 0
    requires forall i :: 0 <= i < |hot| ==> hot[i].from != hot[i].to && hot[i].from in ByTid(threads) && hot[i].to in ByTid(threads)
    ensures maximum <= 0 || |threads| <= maximum ==> r == threads
    ensures 0 < maximum < |threads| ==>
      var c := Choice(ByTid(threads), hot, previous, maximum, Band(maximum, ratio));
      && |r| == maximum && kept <= s <= c.threads.Keys && r == Filtered(threads, s)
      && Selected(c, kept, start, added, grown, s, exchanges)
      && Distinct(ranked) && (forall t :: t in ranked <==> t in c.threads) && Retained(c, ranked, kept, cut)
      && SortedBy(ranked, t => [-Degree(c.hot, t), -DemandOf(c, t)] + IdOf(c, t))
  {
    hide ByTid, Filtered, Retained, SortedBy, Distinct, Band, Selected;
    s, ranked, kept, cut, start, added, grown, exchanges := {}, [], {}, 0, {}, [], {}, 0;
    r := threads;
    if maximum <= 0 || |threads| <= maximum {
      return;
    }
    ByTidIs(threads);
    var c := Choice(ByTid(threads), hot, previous, maximum, Band(maximum, ratio));
    var chosen;
    chosen, ranked, kept, cut, start, added, grown, exchanges := SelectManaged(c);
    FilteredSize(threads, chosen);
    s := chosen;
    r := Filtered(threads, chosen);
  }
}
