/** Populations and loads of places.

A placement is a map from thread to place (a CPU or a node). `Count` is the population
of a place, `Load` the demand on it; the lemmas say how both react when one thread is
set, moved or removed, and give the pigeonhole principle that the planners rely on. */
module Counting {
  import opened Lists

  /** `std::map::operator[]` read of a missing key. */
  function Get(m: map<int, int>, k: int): int {
    if k in m then m[k] else 0
  }

  function GetReal(m: map<int, real>, k: int): real {
    if k in m then m[k] else 0.0
  }

  function Members(at: map<int, int>, p: int): set<int> {
    set t | t in at && at[t] == p
  }

  function Count(at: map<int, int>, p: int): nat {
    |Members(at, p)|
  }

  /** The change that placing `t` at `v` makes to the population of `p`. */
  function Gain(at: map<int, int>, t: int, v: int, p: int): int {
    (if v == p then 1 else 0) - (if t in at && at[t] == p then 1 else 0)
  }

  lemma MembersSet(at: map<int, int>, t: int, v: int, p: int)
    ensures Members(at[t := v], p) - {t} == Members(at, p) - {t}
    ensures t in Members(at[t := v], p) <==> v == p
    ensures t in Members(at, p) <==> t in at && at[t] == p
  {
  }

  lemma CountSet(at: map<int, int>, t: int, v: int, p: int)
    ensures Count(at[t := v], p) == Count(at, p) + Gain(at, t, v, p)
  {
    MembersSet(at, t, v, p);
    CardWithout(Members(at[t := v], p), t);
    CardWithout(Members(at, p), t);
    hide Members;
  }

  lemma CardWithout(s: set<int>, t: int)
    ensures |s| == |s - {t}| + (if t in s then 1 else 0)
  {
    if t in s {
      assert s == (s - {t}) + {t};
    } else {
      assert s == s - {t};
    }
  }

  predicate SubMap(small: map<int, int>, big: map<int, int>) {
    forall t :: t in small ==> t in big && small[t] == big[t]
  }

  lemma SubsetCard(a: set<int>, b: set<int>)
    requires a <= b
    ensures |a| <= |b|
  {
    assert b == a + (b - a);
  }

  lemma CountSub(small: map<int, int>, big: map<int, int>, p: int)
    requires SubMap(small, big)
    ensures Count(small, p) <= Count(big, p)
  {
    forall t | t in Members(small, p)
      ensures t in Members(big, p)
    {
      assert t in small;
    }
    SubsetCard(Members(small, p), Members(big, p));
  }

  function Sum(keys: seq<int>, f: int -> int): int {
    if keys == [] then 0 else f(keys[0]) + Sum(keys[1..], f)
  }

  lemma {:induction false} SumLe(keys: seq<int>, f: int -> int, g: int -> int)
    requires forall k :: k in keys ==> f(k) <= g(k)
    ensures Sum(keys, f) <= Sum(keys, g)
  {
    if keys != [] {
      var k := keys[0];
      assert f(k) <= g(k);
      SumLe(keys[1..], f, g);
    }
  }

  lemma SumEq(keys: seq<int>, f: int -> int, g: int -> int)
    requires forall k :: k in keys ==> f(k) == g(k)
    ensures Sum(keys, f) == Sum(keys, g)
  {
    SumLe(keys, f, g);
    SumLe(keys, g, f);
  }

  /** If `f` is nowhere above `g` and the sums are equal, they agree everywhere. */
  lemma {:induction false} SumLeTight(keys: seq<int>, f: int -> int, g: int -> int, k: int)
    requires forall x :: x in keys ==> f(x) <= g(x)
    requires k in keys
    ensures f(k) < g(k) ==> Sum(keys, f) < Sum(keys, g)
  {
    SumLe(keys[1..], f, g);
    if keys[0] != k {
      SumLeTight(keys[1..], f, g, k);
    }
  }

  lemma {:induction false} SumScale(keys: seq<int>, f: int -> int, g: int -> int, a: int, b: int)
    requires forall k :: k in keys ==> f(k) * a <= g(k) * b
    ensures Sum(keys, f) * a <= Sum(keys, g) * b
  {
    if keys != [] {
      var k := keys[0];
      assert f(k) * a <= g(k) * b;
      SumScale(keys[1..], f, g, a, b);
      var x, y, u, v := f(keys[0]), Sum(keys[1..], f), g(keys[0]), Sum(keys[1..], g);
      assert (x + y) * a == x * a + y * a;
      assert (u + v) * b == u * b + v * b;
    }
  }

  lemma {:induction false} SumCounts(keys: seq<int>, at: map<int, int>)
    requires Distinct(keys)
    requires forall t :: t in at ==> at[t] in keys
    ensures Sum(keys, p => Count(at, p)) == |at|
  {
    if keys == [] {
      Inhabited(at.Keys);
      assert |at| == |at.Keys|;
    } else {
      var k := keys[0];
      var rest := at - Members(at, k);
      WithoutPlace(keys, at);
      SumCounts(keys[1..], rest);
      SumEq(keys[1..], p => Count(rest, p), p => Count(at, p));
    }
  }

  /** Taking the threads of the first place away leaves the other places alone. */
  lemma WithoutPlace(keys: seq<int>, at: map<int, int>)
    requires Distinct(keys) && keys != []
    requires forall t :: t in at ==> at[t] in keys
    ensures var rest := at - Members(at, keys[0]);
      && (forall t :: t in rest ==> rest[t] in keys[1..])
      && (forall p :: p in keys[1..] ==> Count(rest, p) == Count(at, p))
      && |rest| + Count(at, keys[0]) == |at|
  {
    var rest := at - Members(at, keys[0]);
    forall t | t in rest
      ensures rest[t] in keys[1..]
    {
      assert rest[t] in keys;
    }
    forall p | p in keys[1..]
      ensures Count(rest, p) == Count(at, p)
    {
      var i :| 0 <= i < |keys[1..]| && keys[1..][i] == p;
      assert keys[i + 1] == p;
      OtherPlace(at, keys[0], p);
    }
    WithoutSize(at, keys[0]);
  }

  lemma OtherPlace(at: map<int, int>, p: int, q: int)
    requires p != q
    ensures Count(at - Members(at, p), q) == Count(at, q)
  {
    assert Members(at - Members(at, p), q) == Members(at, q);
  }

  lemma WithoutSize(at: map<int, int>, p: int)
    ensures |at - Members(at, p)| + Count(at, p) == |at|
  {
    var here := Members(at, p);
    var rest := at - here;
    assert at.Keys == rest.Keys + here && rest.Keys !! here;
    assert |at| == |at.Keys| && |rest| == |rest.Keys|;
  }

  /** Pigeonhole: fewer threads than total room leaves a place with room. */
  lemma SomePlaceBelow(keys: seq<int>, at: map<int, int>, room: int -> int)
    requires Distinct(keys)
    requires forall t :: t in at ==> at[t] in keys
    requires |at| < Sum(keys, room)
    ensures exists p :: p in keys && Count(at, p) < room(p)
  {
    if forall p :: p in keys ==> room(p) <= Count(at, p) {
      SumLe(keys, room, p => Count(at, p));
      SumCounts(keys, at);
      assert false;
    }
  }

  /** Pigeonhole: if one place is below its share and the shares fit, another is above. */
  lemma SomePlaceAbove(keys: seq<int>, at: map<int, int>, share: int -> int, low: int)
    requires Distinct(keys)
    requires forall t :: t in at ==> at[t] in keys
    requires Sum(keys, share) <= |at|
    requires low in keys && Count(at, low) < share(low)
    ensures exists p :: p in keys && share(p) < Count(at, p)
  {
    if forall p :: p in keys ==> Count(at, p) <= share(p) {
      SumLeTight(keys, p => Count(at, p), share, low);
      SumCounts(keys, at);
      assert false;
    }
  }

  lemma {:induction false} SumConst(keys: seq<int>, c: int)
    ensures Sum(keys, p => c) == c * |keys|
  {
    if keys != [] {
      SumConst(keys[1..], c);
      SumEq(keys[1..], p => c, p => c);
    }
  }

  lemma SomePlaceBelowConst(keys: seq<int>, at: map<int, int>, room: int)
    requires Distinct(keys)
    requires forall t :: t in at ==> at[t] in keys
    requires |at| < room * |keys|
    ensures exists p :: p in keys && Count(at, p) < room
  {
    var f := (p: int) => room;
    SumConst(keys, room);
    SumEq(keys, p => room, f);
    SomePlaceBelow(keys, at, f);
  }

  function SumReal(keys: seq<int>, f: int -> real): real {
    if keys == [] then 0.0 else f(keys[0]) + SumReal(keys[1..], f)
  }

  lemma {:induction false} SumRealEq(keys: seq<int>, f: int -> real, g: int -> real)
    requires forall k :: k in keys ==> f(k) == g(k)
    ensures SumReal(keys, f) == SumReal(keys, g)
  {
    if keys != [] {
      var k := keys[0];
      assert f(k) == g(k);
      SumRealEq(keys[1..], f, g);
    }
  }

  /** Demand of the listed threads that are at place `p`. */
  function Load(tids: seq<int>, demand: map<int, real>, at: map<int, int>, p: int): real {
    if tids == [] then 0.0
    else
      var t := tids[0];
      (if t in at && at[t] == p then GetReal(demand, t) else 0.0) + Load(tids[1..], demand, at, p)
  }

  lemma {:induction false} LoadSame(tids: seq<int>, demand: map<int, real>, a: map<int, int>, b: map<int, int>, p: int)
    requires forall t :: t in tids ==> (t in a && a[t] == p <==> t in b && b[t] == p)
    ensures Load(tids, demand, a, p) == Load(tids, demand, b, p)
  {
    if tids != [] {
      LoadSame(tids[1..], demand, a, b, p);
    }
  }

  function LoadGain(demand: map<int, real>, at: map<int, int>, t: int, v: int, p: int): real {
    (if v == p then GetReal(demand, t) else 0.0)
    - (if t in at && at[t] == p then GetReal(demand, t) else 0.0)
  }

  lemma {:induction false} LoadSet(tids: seq<int>, demand: map<int, real>, at: map<int, int>, t: int, v: int, p: int)
    requires Distinct(tids) && t in tids
    ensures Load(tids, demand, at[t := v], p) == Load(tids, demand, at, p) + LoadGain(demand, at, t, v, p)
  {
    if tids[0] == t {
      forall i | 0 < i < |tids|
        ensures tids[i] != t
      {
      }
      LoadSame(tids[1..], demand, at[t := v], at, p);
    } else {
      LoadSet(tids[1..], demand, at, t, v, p);
    }
  }

  lemma {:induction false} LoadEmpty(tids: seq<int>, demand: map<int, real>, p: int)
    ensures Load(tids, demand, map[], p) == 0.0
  {
    if tids != [] {
      LoadEmpty(tids[1..], demand, p);
    }
  }
}
