/** Holding committed domains (src/domain_solver.cpp:488-555): a committed domain whose
evidence is recent replaces the candidates that overlap it without covering it. */
module Holding {
  import opened NodeChoice
  import opened Domains
  import opened DomainPlan

  predicate Apart(a: Id, b: Id) {
    forall f :: f in a ==> f !in b
  }

  /** No family belongs to two domains of the list. */
  predicate AllApart(list: seq<Domain>) {
    forall i, j :: 0 <= i < j < |list| ==> Apart(list[i].families, list[j].families)
  }

  predicate Peopled(list: seq<Domain>) {
    forall i :: 0 <= i < |list| ==> list[i].families != []
  }

  /** Lines 493-497: complete evidence that is younger than the dwell. */
  predicate Recent(m: Memory, id: Id, now: nat, dwell: nat) {
    id in m.evidence && now - m.evidence[id] < dwell
  }

  /** A committed domain that is held: the old nodes and mask with the present threads. */
  function HeldOf(x: Input, c: Domain): Domain {
    var tids := TidsOf(x.threads, c.families);
    Domain(c.families, tids, c.nodes, c.mask, TotalDemand(MembersOf(x.threads, c.families)),
           if |tids| > x.lim.maxThreads then TooManyThreads else c.verdict)
  }

  /** Recent evidence and at least one live member. */
  predicate Deserves(x: Input, m: Memory, c: Domain) {
    Recent(m, c.families, x.now, x.lim.dwell) && TidsOf(x.threads, c.families) != {}
  }

  predicate AnyCovers(list: seq<Domain>, c: Domain) {
    exists i :: 0 <= i < |list| && Covers(list[i], c)
  }

  /** Lines 531-539: the domains that share no family with `id`, in order. */
  function Without(list: seq<Domain>, id: Id): (r: seq<Domain>)
    ensures forall d :: d in r <==> d in list && Apart(d.families, id)
  {
    if list == [] then []
    else
      var n := |list| - 1;
      assert list == list[..n] + [list[n]];
      Without(list[..n], id) + if Apart(list[n].families, id) then [list[n]] else []
  }

  lemma {:induction false} WithoutApart(list: seq<Domain>, id: Id)
    requires AllApart(list)
    ensures AllApart(Without(list, id))
  {
    if list != [] {
      var n := |list| - 1;
      var rest := Without(list[..n], id);
      WithoutApart(list[..n], id);
      if Apart(list[n].families, id) {
        hide Apart;
        forall i | 0 <= i < |rest|
          ensures Apart(rest[i].families, list[n].families)
        {
          var d := rest[i];
          assert d in rest;
          assert d in list[..n];
          var k :| 0 <= k < n && list[k] == d;
        }
      }
    }
  }

  /** One of the first `k` committed domains deserves it and is held as this. */
  ghost predicate WasHeld(x: Input, m: Memory, committed: seq<Domain>, k: nat, d: Domain)
    requires k <= |committed|
  {
    exists j :: 0 <= j < k && Deserves(x, m, committed[j]) && d == HeldOf(x, committed[j])
  }

  /** One of the first `k` committed domains deserves it and shares a family. */
  ghost predicate Ousted(x: Input, m: Memory, committed: seq<Domain>, k: nat, d: Domain)
    requires k <= |committed|
  {
    exists j :: 0 <= j < k && Deserves(x, m, committed[j]) && !Apart(d.families, committed[j].families)
  }

  /** The list on the way, when the first `k` committed domains have been considered. */
  ghost predicate Holds(x: Input, m: Memory, committed: seq<Domain>, cands: seq<Domain>, k: nat, list: seq<Domain>)
    requires k <= |committed|
  {
    && AllApart(list)
    && (forall d :: d in list && d !in cands ==> WasHeld(x, m, committed, k, d))
    && (forall j :: 0 <= j < k && Deserves(x, m, committed[j]) && !AnyCovers(cands, committed[j]) ==>
          HeldOf(x, committed[j]) in list)
    && (forall d :: d in cands && d !in list ==> Ousted(x, m, committed, k, d))
  }

  lemma NoneHeld(x: Input, m: Memory, committed: seq<Domain>, cands: seq<Domain>)
    requires AllApart(cands)
    ensures Holds(x, m, committed, cands, 0, cands)
  {
  }

  /** A held domain does not cover another committed one. */
  lemma HeldNotCover(x: Input, m: Memory, committed: seq<Domain>, cands: seq<Domain>, k: nat, list: seq<Domain>, d: Domain)
    requires k < |committed| && Holds(x, m, committed, cands, k, list) && AllApart(committed) && Peopled(committed)
    requires d in list && d !in cands
    ensures !Covers(d, committed[k])
  {
    hide Deserves, HeldOf, AnyCovers;
    var j :| 0 <= j < k && Deserves(x, m, committed[j]) && d == HeldOf(x, committed[j]);
    HeldFamilies(x, committed[j]);
    assert Apart(committed[j].families, committed[k].families);
    var f := committed[k].families[0];
    assert f in committed[k].families;
    assert f !in d.families;
  }

  lemma HeldCoversNone(x: Input, m: Memory, committed: seq<Domain>, cands: seq<Domain>, k: nat, list: seq<Domain>)
    requires k < |committed| && Holds(x, m, committed, cands, k, list) && AllApart(committed) && Peopled(committed)
    ensures AnyCovers(list, committed[k]) ==> AnyCovers(cands, committed[k])
  {
    hide Covers, Holds, AllApart, Peopled;
    if AnyCovers(list, committed[k]) {
      var i :| 0 <= i < |list| && Covers(list[i], committed[k]);
      var d := list[i];
      assert d in list;
      if d !in cands {
        HeldNotCover(x, m, committed, cands, k, list, d);
      }
      var n :| 0 <= n < |cands| && cands[n] == d;
      assert Covers(cands[n], committed[k]);
    }
  }

  lemma HeldFamilies(x: Input, c: Domain)
    ensures HeldOf(x, c).families == c.families && HeldOf(x, c).nodes == c.nodes && HeldOf(x, c).mask == c.mask
    ensures HeldOf(x, c).tids == TidsOf(x.threads, c.families)
  {
  }

  lemma WasHeldMore(x: Input, m: Memory, committed: seq<Domain>, k: nat, d: Domain)
    requires k < |committed|
    ensures WasHeld(x, m, committed, k, d) ==> WasHeld(x, m, committed, k + 1, d)
    ensures Deserves(x, m, committed[k]) ==> WasHeld(x, m, committed, k + 1, HeldOf(x, committed[k]))
  {
    hide Deserves, HeldOf;
  }

  lemma OustedMore(x: Input, m: Memory, committed: seq<Domain>, k: nat, d: Domain)
    requires k < |committed|
    ensures Ousted(x, m, committed, k, d) ==> Ousted(x, m, committed, k + 1, d)
    ensures Deserves(x, m, committed[k]) && !Apart(d.families, committed[k].families) ==> Ousted(x, m, committed, k + 1, d)
  {
    hide Deserves, Apart;
  }

  lemma HoldStep(x: Input, m: Memory, committed: seq<Domain>, cands: seq<Domain>, k: nat, list: seq<Domain>)
    requires k < |committed| && Holds(x, m, committed, cands, k, list) && AllApart(committed) && Peopled(committed)
    requires Deserves(x, m, committed[k])
    ensures Holds(x, m, committed, cands, k + 1, Without(list, committed[k].families) + [HeldOf(x, committed[k])])
  {
    hide Deserves, HeldOf, Without, AnyCovers, Apart, AllApart, Peopled, WasHeld, Ousted;
    var c := committed[k];
    var held, kept := HeldOf(x, c), Without(list, c.families);
    HeldFamilies(x, c);
    WithoutApart(list, c.families);
    KeptIs(list, c.families);
    StillApart(kept, held, c.families);
    HeldRemain(x, m, committed, cands, k, list, kept);
    var next := kept + [held];
    forall d | d in next && d !in cands
      ensures WasHeld(x, m, committed, k + 1, d)
    {
      WasHeldMore(x, m, committed, k, d);
    }
    forall d | d in cands && d !in next
      ensures Ousted(x, m, committed, k + 1, d)
    {
      OustedMore(x, m, committed, k, d);
    }
  }

  lemma KeptIs(list: seq<Domain>, id: Id)
    ensures forall d :: d in Without(list, id) <==> d in list && Apart(d.families, id)
  {
  }

  lemma HeldRemain(x: Input, m: Memory, committed: seq<Domain>, cands: seq<Domain>, k: nat, list: seq<Domain>, kept: seq<Domain>)
    requires k < |committed| && Holds(x, m, committed, cands, k, list) && AllApart(committed)
    requires forall d :: d in kept <==> d in list && Apart(d.families, committed[k].families)
    ensures forall j :: 0 <= j < k && Deserves(x, m, committed[j]) && !AnyCovers(cands, committed[j]) ==>
      HeldOf(x, committed[j]) in kept
  {
    hide Deserves, HeldOf, AnyCovers;
    forall j | 0 <= j < k && Deserves(x, m, committed[j]) && !AnyCovers(cands, committed[j])
      ensures HeldOf(x, committed[j]) in kept
    {
      HeldFamilies(x, committed[j]);
      ApartEither(committed, j, k);
    }
  }

  lemma StillApart(kept: seq<Domain>, held: Domain, id: Id)
    requires AllApart(kept) && held.families == id && forall d :: d in kept ==> Apart(d.families, id)
    ensures AllApart(kept + [held])
  {
    hide Apart;
    forall i | 0 <= i < |kept|
      ensures Apart(kept[i].families, held.families)
    {
      var d := kept[i];
      assert d in kept;
    }
  }

  lemma SkipStep(x: Input, m: Memory, committed: seq<Domain>, cands: seq<Domain>, k: nat, list: seq<Domain>)
    requires k < |committed| && Holds(x, m, committed, cands, k, list)
    requires !Deserves(x, m, committed[k]) || AnyCovers(cands, committed[k])
    ensures Holds(x, m, committed, cands, k + 1, list)
  {
    hide Deserves, HeldOf, AnyCovers, Apart, AllApart, WasHeld, Ousted;
    forall d | d in list && d !in cands
      ensures WasHeld(x, m, committed, k + 1, d)
    {
      WasHeldMore(x, m, committed, k, d);
    }
    forall d | d in cands && d !in list
      ensures Ousted(x, m, committed, k + 1, d)
    {
      OustedMore(x, m, committed, k, d);
    }
  }

  /** No domain of the list has too many threads. */
  predicate AllSmall(x: Input, list: seq<Domain>) {
    forall d :: d in list ==> |d.tids| <= x.lim.maxThreads
  }

  predicate AllSound(list: seq<Domain>) {
    forall i :: 0 <= i < |list| ==> list[i].verdict == Sound
  }

  /** The whole loop as a function: each committed domain in turn, against the list so far. */
  function HoldAll(x: Input, m: Memory, committed: seq<Domain>, cands: seq<Domain>): seq<Domain> {
    if committed == [] then cands
    else
      var n := |committed| - 1;
      var list, c := HoldAll(x, m, committed[..n], cands), committed[n];
      if !Deserves(x, m, c) || AnyCovers(list, c) then list else Without(list, c.families) + [HeldOf(x, c)]
  }

  /** Lines 492-555. */
  method HoldDomains(x: Input, m: Memory, committed: seq<Domain>, cands: seq<Domain>) returns (list: seq<Domain>, sound: bool)
    requires AllApart(committed) && Peopled(committed) && AllApart(cands)
    requires AllSound(cands) ==> AllSmall(x, cands)
    ensures Holds(x, m, committed, cands, |committed|, list)
    ensures sound <==> AllSound(cands) && AllSmall(x, list)
    ensures list == HoldAll(x, m, committed, cands)
  {
    hide Holds, Deserves, AllApart, HeldOf, Without, AnyCovers, AllSound, Apart;
    list, sound := cands, AllSound(cands);
    NoneHeld(x, m, committed, cands);
    assert committed[..0] == [];
    for k := 0 to |committed|
      invariant Holds(x, m, committed, cands, k, list)
      invariant list == HoldAll(x, m, committed[..k], cands)
      invariant sound <==> AllSound(cands) && AllSmall(x, list)
    {
      var c := committed[k];
      assert committed[..k + 1][..k] == committed[..k];
      HeldCoversNone(x, m, committed, cands, k, list);
      if !Deserves(x, m, c) || AnyCovers(list, c) {
        SkipStep(x, m, committed, cands, k, list);
        continue;
      }
      HoldStep(x, m, committed, cands, k, list);
      var held := HeldOf(x, c);
      HeldSmall(x, m, committed, cands, k, list);
      list := Without(list, c.families) + [held];
      if |held.tids| > x.lim.maxThreads {
        sound := false;
      }
    }
    assert committed[..|committed|] == committed;
  }

  lemma HoldAllStep(x: Input, m: Memory, committed: seq<Domain>, cands: seq<Domain>, k: nat)
    requires k < |committed|
    ensures var list, c := HoldAll(x, m, committed[..k], cands), committed[k];
      HoldAll(x, m, committed[..k + 1], cands) ==
      if !Deserves(x, m, c) || AnyCovers(list, c) then list else Without(list, c.families) + [HeldOf(x, c)]
  {
    hide Deserves, AnyCovers, Without, HeldOf;
    assert committed[..k + 1][..k] == committed[..k];
  }

  lemma HoldNothing(x: Input, m: Memory, committed: seq<Domain>, cands: seq<Domain>)
    ensures HoldAll(x, m, committed[..0], cands) == cands
  {
  }

  lemma {:induction false} HoldAllHolds(x: Input, m: Memory, committed: seq<Domain>, cands: seq<Domain>, k: nat)
    requires k <= |committed| && AllApart(committed) && Peopled(committed) && AllApart(cands)
    ensures Holds(x, m, committed, cands, k, HoldAll(x, m, committed[..k], cands))
  {
    hide *;
    if k == 0 {
      NoneHeld(x, m, committed, cands);
      HoldNothing(x, m, committed, cands);
    } else {
      var list := HoldAll(x, m, committed[..k - 1], cands);
      HoldAllHolds(x, m, committed, cands, k - 1);
      HoldAllStep(x, m, committed, cands, k - 1);
      HeldCoversNone(x, m, committed, cands, k - 1, list);
      if !Deserves(x, m, committed[k - 1]) || AnyCovers(list, committed[k - 1]) {
        SkipStep(x, m, committed, cands, k - 1, list);
      } else {
        HoldStep(x, m, committed, cands, k - 1, list);
      }
    }
  }

  /** The committed domain is held in its turn, because nothing covers it then. */
  ghost predicate HeldAt(x: Input, m: Memory, committed: seq<Domain>, cands: seq<Domain>, i: nat)
    requires i < |committed|
  {
    Deserves(x, m, committed[i]) && !AnyCovers(HoldAll(x, m, committed[..i], cands), committed[i])
  }

  lemma HeldAtStep(x: Input, m: Memory, committed: seq<Domain>, cands: seq<Domain>, k: nat)
    requires k < |committed|
    ensures var list, c := HoldAll(x, m, committed[..k], cands), committed[k];
      HoldAll(x, m, committed[..k + 1], cands) ==
      if HeldAt(x, m, committed, cands, k) then Without(list, c.families) + [HeldOf(x, c)] else list
  {
    hide Deserves, AnyCovers, Without, HeldOf;
    HoldAllStep(x, m, committed, cands, k);
  }

  /** A committed domain that throws a candidate out when its turn comes. */
  predicate Bad(x: Input, m: Memory, c: Domain, d: Domain) {
    Deserves(x, m, c) && !Apart(d.families, c.families) && !Covers(d, c)
  }

  lemma CoverExcludesOverlap(list: seq<Domain>, c: Domain, d: Domain)
    requires AllApart(list) && d in list && AnyCovers(list, c) && !Apart(d.families, c.families)
    ensures Covers(d, c)
  {
    var i :| 0 <= i < |list| && Covers(list[i], c);
    var k :| 0 <= k < |list| && list[k] == d;
    var f :| f in d.families && f in c.families;
    FamilyOnce(list, i, k, f);
  }

  /** A family is in one domain of the list at most. */
  lemma FamilyOnce(list: seq<Domain>, i: nat, k: nat, f: Family)
    requires AllApart(list) && i < |list| && k < |list| && f in list[i].families
    ensures f in list[k].families ==> i == k
  {
    if i != k {
      ApartEither(list, i, k);
    }
  }

  /** One turn throws out exactly the candidates for which its domain is bad. */
  lemma SurvivesTurn(x: Input, m: Memory, committed: seq<Domain>, cands: seq<Domain>, k: nat, d: Domain)
    requires k < |committed| && AllApart(committed) && Peopled(committed) && AllApart(cands)
    requires d in HoldAll(x, m, committed[..k], cands)
    ensures d in HoldAll(x, m, committed[..k + 1], cands) <==> !Bad(x, m, committed[k], d)
  {
    var list, c := HoldAll(x, m, committed[..k], cands), committed[k];
    HoldAllHolds(x, m, committed, cands, k);
    HoldAllStep(x, m, committed, cands, k);
    HeldFamilies(x, c);
    HoldsApart(x, m, committed, cands, k, list);
    hide Holds, HoldAll, HeldOf, Deserves, AllApart, Without;
    if AnyCovers(list, c) && !Apart(d.families, c.families) {
      CoverExcludesOverlap(list, c, d);
    }
    var i :| 0 <= i < |list| && list[i] == d;
    assert Covers(d, c) ==> Covers(list[i], c);
    CoversSelf(x, c);
  }

  lemma CoversSelf(x: Input, c: Domain)
    ensures Covers(HeldOf(x, c), c)
  {
    HeldFamilies(x, c);
  }

  lemma HoldsApart(x: Input, m: Memory, committed: seq<Domain>, cands: seq<Domain>, k: nat, list: seq<Domain>)
    requires k <= |committed| && Holds(x, m, committed, cands, k, list)
    ensures AllApart(list)
  {
    hide AllApart, Deserves, HeldOf, AnyCovers, Apart;
  }

  /** What is thrown out does not come back as a held domain. */
  lemma StaysOut(x: Input, m: Memory, committed: seq<Domain>, cands: seq<Domain>, k: nat, d: Domain, i: nat)
    requires i < k < |committed| && AllApart(committed) && Bad(x, m, committed[i], d)
    requires d !in HoldAll(x, m, committed[..k], cands)
    ensures d !in HoldAll(x, m, committed[..k + 1], cands)
  {
    HoldAllStep(x, m, committed, cands, k);
    HeldFamilies(x, committed[k]);
    assert Apart(committed[i].families, committed[k].families);
    hide HoldAll, HeldOf, Deserves, Without, AnyCovers;
    Elsewhere(d.families, committed[i].families, committed[k].families);
  }

  lemma Elsewhere(a: Id, b: Id, c: Id)
    requires !Apart(a, b) && Apart(b, c)
    ensures a != c
  {
    var f :| f in a && f in b;
    assert f !in c;
  }

  /** A candidate is left after some turns exactly if no domain of those turns is bad for it. */
  lemma {:induction false} Survives(x: Input, m: Memory, committed: seq<Domain>, cands: seq<Domain>, k: nat, d: Domain)
    requires k <= |committed| && AllApart(committed) && Peopled(committed) && AllApart(cands) && d in cands
    ensures d in HoldAll(x, m, committed[..k], cands) <==> forall i :: 0 <= i < k ==> !Bad(x, m, committed[i], d)
  {
    hide HoldAll, Bad, AllApart, Peopled;
    if k == 0 {
      HoldNone(x, m, committed, cands);
    } else {
      var n := k - 1;
      Survives(x, m, committed, cands, n, d);
      if d in HoldAll(x, m, committed[..n], cands) {
        SurvivesTurn(x, m, committed, cands, n, d);
      } else {
        var i :| 0 <= i < n && Bad(x, m, committed[i], d);
        StaysOut(x, m, committed, cands, n, d, i);
      }
    }
  }

  lemma HoldNone(x: Input, m: Memory, committed: seq<Domain>, cands: seq<Domain>)
    ensures HoldAll(x, m, committed[..0], cands) == cands
  {
  }

  /** A held domain stays. */
  lemma {:induction false} HeldStays(x: Input, m: Memory, committed: seq<Domain>, cands: seq<Domain>, j: nat, k: nat)
    requires j < k <= |committed| && AllApart(committed) && HeldAt(x, m, committed, cands, j)
    ensures HeldOf(x, committed[j]) in HoldAll(x, m, committed[..k], cands)
    decreases k
  {
    hide HoldAll, HeldOf, HeldAt, AllApart, Without, Apart;
    HeldAtStep(x, m, committed, cands, k - 1);
    if j < k - 1 {
      HeldStays(x, m, committed, cands, j, k - 1);
      HeldFamilies(x, committed[j]);
      ApartEither(committed, j, k - 1);
      KeptApart(HoldAll(x, m, committed[..k - 1], cands), committed[k - 1].families, HeldOf(x, committed[j]));
    }
  }

  lemma KeptApart(list: seq<Domain>, id: Id, d: Domain)
    requires d in list && Apart(d.families, id)
    ensures d in Without(list, id)
  {
  }

  /** What is in the list and no candidate was held in its turn. */
  lemma {:induction false} HeldOrigin(x: Input, m: Memory, committed: seq<Domain>, cands: seq<Domain>, k: nat, d: Domain)
    requires k <= |committed| && d in HoldAll(x, m, committed[..k], cands) && d !in cands
    ensures exists i :: 0 <= i < k && HeldAt(x, m, committed, cands, i) && d == HeldOf(x, committed[i])
  {
    hide HoldAll, HeldOf, HeldAt;
    if k == 0 {
      HoldNone(x, m, committed, cands);
    } else {
      HeldAtStep(x, m, committed, cands, k - 1);
      if d in HoldAll(x, m, committed[..k - 1], cands) {
        HeldOrigin(x, m, committed, cands, k - 1, d);
      }
    }
  }

  /** A candidate covered the committed domain when its turn came, and a later hold threw that
  candidate out. */
  ghost predicate CoverLost(x: Input, m: Memory, committed: seq<Domain>, cands: seq<Domain>, j: nat, d: Domain)
    requires j < |committed|
  {
    && d in cands && Covers(d, committed[j])
    && (forall i :: 0 <= i < j ==> !Bad(x, m, committed[i], d))
    && (exists i :: j < i < |committed| && Bad(x, m, committed[i], d))
  }

  lemma LostNotHeld(x: Input, m: Memory, committed: seq<Domain>, cands: seq<Domain>, j: nat, d: Domain)
    requires AllApart(committed) && Peopled(committed) && AllApart(cands) && j < |committed| && CoverLost(x, m, committed, cands, j, d)
    ensures !HeldAt(x, m, committed, cands, j) && d !in HoldAll(x, m, committed, cands)
  {
    hide HoldAll, Bad, AllApart, Peopled, Covers, Deserves;
    Survives(x, m, committed, cands, j, d);
    Survives(x, m, committed, cands, |committed|, d);
    assert committed[..|committed|] == committed;
    var list := HoldAll(x, m, committed[..j], cands);
    var i :| 0 <= i < |list| && list[i] == d;
    assert Covers(list[i], committed[j]);
  }

  /** Of the candidates one at most covers a committed domain. */
  lemma OnlyCover(cands: seq<Domain>, c: Domain, d: Domain, e: Domain)
    requires AllApart(cands) && c.families != [] && d in cands && e in cands && Covers(d, c) && d != e
    ensures !Covers(e, c)
  {
    var i :| 0 <= i < |cands| && cands[i] == d;
    var k :| 0 <= k < |cands| && cands[k] == e;
    var f := c.families[0];
    assert f in c.families;
    assert f in d.families;
    ApartEither(cands, i, k);
    assert f !in e.families;
  }

  /** A domain held in another turn does not cover a committed one. */
  lemma OtherHold(x: Input, committed: seq<Domain>, i: nat, j: nat)
    requires AllApart(committed) && Peopled(committed) && i < |committed| && j < |committed| && i != j
    ensures !Covers(HeldOf(x, committed[i]), committed[j])
  {
    HeldFamilies(x, committed[i]);
    ApartEither(committed, i, j);
    var f := committed[j].families[0];
    assert f in committed[j].families;
    assert f !in committed[i].families;
  }

  /** Nothing in the result covers a committed domain that lost its cover. */
  lemma NothingCovers(x: Input, m: Memory, committed: seq<Domain>, cands: seq<Domain>, j: nat, d: Domain, e: Domain)
    requires AllApart(committed) && Peopled(committed) && AllApart(cands) && j < |committed| && CoverLost(x, m, committed, cands, j, d)
    requires e in HoldAll(x, m, committed, cands)
    ensures !Covers(e, committed[j])
  {
    hide HoldAll, AllApart, CoverLost, HeldAt, HeldOf, Covers;
    LostNotHeld(x, m, committed, cands, j, d);
    LostParts(x, m, committed, cands, j, d);
    if e in cands {
      OnlyCover(cands, committed[j], d, e);
    } else {
      assert committed[..|committed|] == committed;
      HeldOrigin(x, m, committed, cands, |committed|, e);
      var i :| 0 <= i < |committed| && HeldAt(x, m, committed, cands, i) && e == HeldOf(x, committed[i]);
      OtherHold(x, committed, i, j);
    }
  }

  lemma LostMeansGone(x: Input, m: Memory, committed: seq<Domain>, cands: seq<Domain>, j: nat, d: Domain)
    requires AllApart(committed) && Peopled(committed) && AllApart(cands) && j < |committed| && CoverLost(x, m, committed, cands, j, d)
    ensures !AnyCovers(HoldAll(x, m, committed, cands), committed[j])
  {
    hide HoldAll, AllApart, CoverLost, Covers, Peopled;
    var list := HoldAll(x, m, committed, cands);
    forall n | 0 <= n < |list|
      ensures !Covers(list[n], committed[j])
    {
      var e := list[n];
      assert e in list;
      NothingCovers(x, m, committed, cands, j, d, e);
    }
  }

  lemma LostParts(x: Input, m: Memory, committed: seq<Domain>, cands: seq<Domain>, j: nat, d: Domain)
    requires j < |committed| && CoverLost(x, m, committed, cands, j, d)
    ensures d in cands && Covers(d, committed[j])
  {
    hide Bad, Covers;
  }

  lemma InResult(list: seq<Domain>, c: Domain, d: Domain)
    requires d in list && Covers(d, c)
    ensures AnyCovers(list, c)
  {
    hide Covers;
    var n :| 0 <= n < |list| && list[n] == d;
    assert Covers(list[n], c);
  }

  lemma HeldServed(x: Input, m: Memory, committed: seq<Domain>, cands: seq<Domain>, j: nat)
    requires AllApart(committed) && j < |committed|
    ensures HeldAt(x, m, committed, cands, j) ==> AnyCovers(HoldAll(x, m, committed, cands), committed[j])
  {
    hide HoldAll, AllApart, HeldAt, HeldOf, AnyCovers, Covers;
    if HeldAt(x, m, committed, cands, j) {
      assert committed[..|committed|] == committed;
      HeldStays(x, m, committed, cands, j, |committed|);
      CoversSelf(x, committed[j]);
      InResult(HoldAll(x, m, committed, cands), committed[j], HeldOf(x, committed[j]));
    }
  }

  /** Who covers a committed domain in its turn, if it is not held. */
  lemma CoverInTurn(x: Input, m: Memory, committed: seq<Domain>, cands: seq<Domain>, j: nat) returns (d: Domain)
    requires AllApart(committed) && Peopled(committed) && AllApart(cands) && j < |committed| && Deserves(x, m, committed[j])
    requires !HeldAt(x, m, committed, cands, j)
    ensures d in cands && Covers(d, committed[j]) && d in HoldAll(x, m, committed[..j], cands)
  {
    hide HoldAll, AllApart, Deserves, Covers, HeldOf, Holds, Peopled;
    var list := HoldAll(x, m, committed[..j], cands);
    HoldAllHolds(x, m, committed, cands, j);
    var n :| 0 <= n < |list| && Covers(list[n], committed[j]);
    d := list[n];
    assert d in list;
    if d !in cands {
      HeldNotCover(x, m, committed, cands, j, list, d);
    }
  }

  lemma GoneMeansLost(x: Input, m: Memory, committed: seq<Domain>, cands: seq<Domain>, j: nat)
    requires AllApart(committed) && Peopled(committed) && AllApart(cands) && j < |committed| && Deserves(x, m, committed[j])
    requires !AnyCovers(HoldAll(x, m, committed, cands), committed[j])
    ensures exists d :: CoverLost(x, m, committed, cands, j, d)
  {
    hide HoldAll, AllApart, Deserves, Covers, HeldAt, Bad, Peopled, AnyCovers;
    assert committed[..|committed|] == committed;
    HeldServed(x, m, committed, cands, j);
    var d := CoverInTurn(x, m, committed, cands, j);
    Survives(x, m, committed, cands, j, d);
    Survives(x, m, committed, cands, |committed|, d);
    if d in HoldAll(x, m, committed, cands) {
      InResult(HoldAll(x, m, committed, cands), committed[j], d);
    }
    var i :| 0 <= i < |committed| && Bad(x, m, committed[i], d);
    CoversNotBad(x, m, committed[j], d);
    assert CoverLost(x, m, committed, cands, j, d);
  }

  lemma CoversNotBad(x: Input, m: Memory, c: Domain, d: Domain)
    requires Covers(d, c)
    ensures !Bad(x, m, c, d)
  {
    hide Deserves, Covers, Apart;
  }

  lemma ApartEither(list: seq<Domain>, i: nat, j: nat)
    requires i < |list| && j < |list| && i != j && AllApart(list)
    ensures Apart(list[i].families, list[j].families) && Apart(list[j].families, list[i].families)
  {
    if i < j {
      assert Apart(list[i].families, list[j].families);
    } else {
      assert Apart(list[j].families, list[i].families);
    }
  }

  /** A committed domain that deserves to be held has a domain with all its families in the result,
  unless a candidate covered it in its turn and a later hold threw that candidate out. */
  lemma ServedExactly(x: Input, m: Memory, committed: seq<Domain>, cands: seq<Domain>, j: nat)
    requires AllApart(committed) && Peopled(committed) && AllApart(cands) && j < |committed| && Deserves(x, m, committed[j])
    ensures AnyCovers(HoldAll(x, m, committed, cands), committed[j]) <==> !exists d :: CoverLost(x, m, committed, cands, j, d)
  {
    hide *;
    if exists d :: CoverLost(x, m, committed, cands, j, d) {
      var d :| CoverLost(x, m, committed, cands, j, d);
      LostMeansGone(x, m, committed, cands, j, d);
    }
    if !AnyCovers(HoldAll(x, m, committed, cands), committed[j]) {
      GoneMeansLost(x, m, committed, cands, j);
    }
  }

  /** An earlier one need not be: a candidate covers it, so it is not held, and then a later hold
  throws that candidate out. */
  lemma CoveredMayVanish(x: Input, m: Memory, a: Domain, b: Domain, d: Domain)
    requires a.families == [1] && b.families == [2, 3] && d.families == [1, 2]
    requires Deserves(x, m, a) && Deserves(x, m, b)
    ensures HoldAll(x, m, [a, b], [d]) == [HeldOf(x, b)] && !AnyCovers(HoldAll(x, m, [a, b], [d]), a)
  {
    hide Deserves;
    assert [a, b][..1] == [a] && [a, b][1] == b && [a][..0] == [] && [a][0] == a;
    assert HoldAll(x, m, [], [d]) == [d];
    assert Covers([d][0], a);
    assert HoldAll(x, m, [a], [d]) == [d];
    assert 3 in b.families && 3 !in d.families;
    assert !Covers([d][0], b);
    assert 2 in d.families && 2 in b.families;
    assert [d][..0] == [] && !Apart([d][0].families, b.families);
    assert Without([d], b.families) == [];
    HeldFamilies(x, b);
    assert 1 in a.families && 1 !in HeldOf(x, b).families;
  }

  /** What a hold throws out is a candidate, so it hides no domain that is too large. */
  lemma HeldSmall(x: Input, m: Memory, committed: seq<Domain>, cands: seq<Domain>, k: nat, list: seq<Domain>)
    requires k < |committed| && Holds(x, m, committed, cands, k, list) && AllApart(committed)
    requires AllSound(cands) ==> AllSmall(x, cands)
    ensures AllSound(cands) ==>
      (AllSmall(x, Without(list, committed[k].families) + [HeldOf(x, committed[k])]) <==>
       AllSmall(x, list) && |HeldOf(x, committed[k]).tids| <= x.lim.maxThreads)
  {
    hide Deserves, HeldOf, Without, AnyCovers, AllSound;
    var kept, held := Without(list, committed[k].families), HeldOf(x, committed[k]);
    if AllSound(cands) && AllSmall(x, kept + [held]) {
      assert held in kept + [held];
      forall d | d in list
        ensures |d.tids| <= x.lim.maxThreads
      {
        if d !in cands {
          var j :| 0 <= j < k && Deserves(x, m, committed[j]) && d == HeldOf(x, committed[j]);
          HeldFamilies(x, committed[j]);
          assert Apart(committed[j].families, committed[k].families);
          assert d in kept;
          assert d in kept + [held];
        }
      }
    }
  }
}
