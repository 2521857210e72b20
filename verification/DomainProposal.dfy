/** From the domains of a window to a proposal (src/domain_solver.cpp:557-640): the masks of
the planned threads, what is released, when the plan is ready, and the writes it needs. */
module DomainProposal {
  import opened Lists
  import opened Threads
  import opened NodeChoice
  import opened Domains
  import opened Holding

  /** The (domain, nodes, validity) list of a proposal. */
  type Signature = seq<(Id, seq<int>, Verdict)>

  datatype Proposal = Proposal(
    id: nat,
    domains: seq<Domain>,
    planned: map<int, Mask>,
    inherited: set<int>,
    delta: map<int, Mask>,
    released: set<int>,
    valid: bool,
    ready: bool)

  function SignatureOf(domains: seq<Domain>): (r: Signature)
    ensures |r| == |domains|
    ensures forall i :: 0 <= i < |r| ==> r[i] == (domains[i].families, domains[i].nodes, domains[i].verdict)
  {
    seq(|domains|, i requires 0 <= i < |domains| => (domains[i].families, domains[i].nodes, domains[i].verdict))
  }

  // ----- order -----

  function IdKey(d: Domain): seq<real> {
    Reals(d.families)
  }

  lemma ApartDistinct(list: seq<Domain>)
    requires AllApart(list) && Peopled(list)
    ensures Distinct(list)
  {
    forall i, j | 0 <= i < j < |list|
      ensures list[i] != list[j]
    {
      assert Apart(list[i].families, list[j].families);
      var f := list[i].families[0];
      assert f in list[i].families;
    }
  }

  /** The order of domains does not matter for what they share. */
  lemma ApartInAnyOrder(a: seq<Domain>, b: seq<Domain>)
    requires AllApart(a) && Peopled(a) && multiset(a) == multiset(b)
    ensures AllApart(b) && Peopled(b)
  {
    ApartDistinct(a);
    SortKeepsDistinct(a, b);
    SameElements(a, b);
    hide Apart;
    forall i | 0 <= i < |b|
      ensures b[i].families != []
    {
      var d := b[i];
      assert d in b;
      var k :| 0 <= k < |a| && a[k] == d;
    }
    forall i, j | 0 <= i < j < |b|
      ensures Apart(b[i].families, b[j].families)
    {
      var d, e := b[i], b[j];
      assert d in b && e in b;
      var k :| 0 <= k < |a| && a[k] == d;
      var l :| 0 <= l < |a| && a[l] == e;
      ApartEither(a, k, l);
    }
  }

  // ----- masks -----

  /** No thread belongs to two domains of the list. */
  predicate TidsApart(list: seq<Domain>) {
    forall i, j :: 0 <= i < j < |list| ==> list[i].tids !! list[j].tids
  }

  /** Every domain has exactly the present threads of its families. */
  predicate Staffed(threads: seq<Thread>, list: seq<Domain>) {
    forall i :: 0 <= i < |list| ==> list[i].tids == TidsOf(threads, list[i].families)
  }

  lemma FamiliesApartTidsApart(threads: seq<Thread>, list: seq<Domain>)
    requires UniqueTids(threads) && AllApart(list) && Staffed(threads, list)
    ensures TidsApart(list)
  {
    forall i, j | 0 <= i < j < |list|
      ensures list[i].tids !! list[j].tids
    {
      assert Apart(list[i].families, list[j].families);
      DifferentThreads(threads, list[i].families, list[j].families);
    }
  }

  lemma DifferentThreads(threads: seq<Thread>, a: Id, b: Id)
    requires UniqueTids(threads) && Apart(a, b)
    ensures TidsOf(threads, a) !! TidsOf(threads, b)
  {
    forall th, o | th in threads && o in threads && th.group in a && o.group in b
      ensures th.id.tid != o.id.tid
    {
      var i :| 0 <= i < |threads| && threads[i] == th;
      var j :| 0 <= j < |threads| && threads[j] == o;
    }
  }

  /** The planned masks are those of exactly the threads of the first `k` domains that are sound. */
  ghost predicate Masked(x: Input, list: seq<Domain>, k: nat, planned: map<int, Mask>)
    requires k <= |list|
  {
    && (forall t :: t in planned ==> exists i :: 0 <= i < k && list[i].verdict == Sound && t in list[i].tids)
    && (forall i, t :: 0 <= i < k && list[i].verdict == Sound && t in list[i].tids ==>
          t in planned && planned[t] == Target(x, list[i].mask, t) && planned[t] != {})
  }

  /** Lines 565-581 for one domain. */
  method MaskDomain(x: Input, d: Domain, before: map<int, Mask>) returns (ok: bool, planned: map<int, Mask>)
    requires d.tids !! before.Keys
    ensures ok <==> !Starves(x, d.mask, d.tids)
    ensures ok ==> planned == before + map t | t in d.tids :: Target(x, d.mask, t)
  {
    hide Target;
    planned := before;
    var todo, done := d.tids, {};
    while todo != {}
      invariant todo + done == d.tids && todo !! done
      invariant planned == before + map t | t in done :: Target(x, d.mask, t)
      invariant forall t :: t in done ==> Target(x, d.mask, t) != {}
      decreases todo
    {
      Inhabited(todo);
      var t := Least(todo);
      var target := Target(x, d.mask, t);
      if target == {} {
        assert t in d.tids;
        return false, map[];
      }
      todo, done, planned := todo - {t}, done + {t}, planned[t := target];
    }
    assert done == d.tids;
    ok := true;
  }

  lemma MaskedMore(x: Input, list: seq<Domain>, k: nat, planned: map<int, Mask>)
    requires k < |list| && TidsApart(list) && Masked(x, list, k, planned)
    requires list[k].verdict == Sound ==> !Starves(x, list[k].mask, list[k].tids)
    ensures list[k].verdict != Sound ==> Masked(x, list, k + 1, planned)
    ensures list[k].verdict == Sound ==>
      Masked(x, list, k + 1, planned + map t | t in list[k].tids :: Target(x, list[k].mask, t))
  {
    hide Target;
    var d := list[k];
    if d.verdict == Sound {
      var next := planned + map t | t in d.tids :: Target(x, d.mask, t);
      forall i, t | 0 <= i < k + 1 && list[i].verdict == Sound && t in list[i].tids
        ensures t in next && next[t] == Target(x, list[i].mask, t) && next[t] != {}
      {
        if i < k {
          assert t !in list[k].tids;
        }
      }
    }
  }

  /** The domains and masks at the end: either every sound domain can serve all its threads and
  nothing changes, or the first one that cannot is marked and nothing is planned. */
  ghost predicate Filled(x: Input, list: seq<Domain>, domains: seq<Domain>, ok: bool, planned: map<int, Mask>) {
    && (ok ==> domains == list && Masked(x, list, |list|, planned))
    && (!ok ==> planned == map[] && exists k :: MarkedAt(x, list, domains, k))
  }

  ghost predicate MarkedAt(x: Input, list: seq<Domain>, domains: seq<Domain>, k: nat) {
    && k < |list| && list[k].verdict == Sound && Starves(x, list[k].mask, list[k].tids)
    && domains == list[k := list[k].(verdict := EmptyMask)]
  }

  lemma MaskedFree(x: Input, list: seq<Domain>, k: nat, planned: map<int, Mask>)
    requires k < |list| && TidsApart(list) && Masked(x, list, k, planned)
    ensures list[k].tids !! planned.Keys
  {
    hide Target;
    forall t | t in planned.Keys
      ensures t !in list[k].tids
    {
      var i :| 0 <= i < k && list[i].verdict == Sound && t in list[i].tids;
      assert list[i].tids !! list[k].tids;
    }
  }

  /** Lines 561-584. */
  method FillMasks(x: Input, list: seq<Domain>) returns (domains: seq<Domain>, ok: bool, planned: map<int, Mask>)
    requires TidsApart(list)
    ensures Filled(x, list, domains, ok, planned)
  {
    hide Masked, Starves, Target, TidsApart;
    domains, planned := list, map[];
    MaskedNone(x, list);
    for k := 0 to |list|
      invariant Masked(x, list, k, planned)
    {
      MaskedFree(x, list, k, planned);
      if list[k].verdict == Sound {
        var fits, next := MaskDomain(x, list[k], planned);
        if !fits {
          assert MarkedAt(x, list, list[k := list[k].(verdict := EmptyMask)], k);
          return list[k := list[k].(verdict := EmptyMask)], false, map[];
        }
        MaskedMore(x, list, k, planned);
        planned := next;
      } else {
        MaskedMore(x, list, k, planned);
      }
    }
    ok := true;
  }

  lemma MaskedNone(x: Input, list: seq<Domain>)
    ensures Masked(x, list, 0, map[])
  {
  }

  // ----- what has to be written -----

  /** Lines 612-637: the mask is written for the planned threads that neither have it in the
  placement nor were seen with it. */
  predicate Inherits(x: Input, placement: map<int, Mask>, t: int, mask: Mask) {
    t !in placement && (if t in x.allowed then x.allowed[t] else {}) == mask
  }

  function Writes(x: Input, placement: map<int, Mask>, planned: map<int, Mask>): map<int, Mask> {
    map t | t in planned && !(t in placement && placement[t] == planned[t]) && !Inherits(x, placement, t, planned[t]) :: planned[t]
  }

  function InheritedOf(x: Input, placement: map<int, Mask>, planned: map<int, Mask>): set<int> {
    set t | t in planned && Inherits(x, placement, t, planned[t])
  }

  method SplitWrites(x: Input, placement: map<int, Mask>, planned: map<int, Mask>) returns (inherited: set<int>, delta: map<int, Mask>)
    ensures inherited == InheritedOf(x, placement, planned) && delta == Writes(x, placement, planned)
  {
    hide Inherits;
    inherited, delta := {}, map[];
    var todo, done := planned.Keys, {};
    while todo != {}
      invariant todo + done == planned.Keys && todo !! done
      invariant inherited == set t | t in done && Inherits(x, placement, t, planned[t])
      invariant delta == map t | t in done && !(t in placement && placement[t] == planned[t]) && !Inherits(x, placement, t, planned[t]) :: planned[t]
      decreases todo
    {
      Inhabited(todo);
      var t := Least(todo);
      assert t in planned.Keys;
      InheritsUnplaced(x, placement, t, planned[t]);
      if t in placement && placement[t] == planned[t] {
      } else if Inherits(x, placement, t, planned[t]) {
        inherited := inherited + {t};
      } else {
        delta := delta[t := planned[t]];
      }
      todo, done := todo - {t}, done + {t};
    }
    assert done == planned.Keys;
  }

  lemma InheritsUnplaced(x: Input, placement: map<int, Mask>, t: int, mask: Mask)
    ensures Inherits(x, placement, t, mask) ==> t !in placement
  {
  }
}
