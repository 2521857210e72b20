/** Orders, sorting and minimum search shared by the planners.

Every `std::tuple`, vector or comparator that the planners compare is written as a
sequence of reals and compared lexicographically. */
module Lists {

  datatype Option<+T> = None | Some(value: T)

  datatype Result<+T> = Ok(value: T) | Err(error: string)

  /** The tolerance 1e-12 that the planners add to floating-point comparisons. */
  const EPS: real := 0.000000000001

  function Max(a: real, b: real): real {
    if a < b then b else a
  }

  function MaxInt(a: int, b: int): int {
    if a < b then b else a
  }

  function Abs(a: real): real {
    if a < 0.0 then -a else a
  }

  function Ceil(x: real): int {
    -((-x).Floor)
  }

  function Bit(b: bool): real {
    if b then 1.0 else 0.0
  }

  predicate LexLess(a: seq<real>, b: seq<real>) {
    b != [] && (a == [] || a[0] < b[0] || (a[0] == b[0] && LexLess(a[1..], b[1..])))
  }

  lemma {:induction false} LexTotal(a: seq<real>, b: seq<real>)
    ensures LexLess(a, b) || LexLess(b, a) || a == b
  {
    if a != [] && b != [] && a[0] == b[0] {
      LexTotal(a[1..], b[1..]);
      if a[1..] == b[1..] {
        assert a == [a[0]] + a[1..] && b == [b[0]] + b[1..];
      }
    }
  }

  lemma {:induction false} LexTransitive(a: seq<real>, b: seq<real>, c: seq<real>)
    requires LexLess(a, b) && LexLess(b, c)
    ensures LexLess(a, c)
  {
    if a != [] && a[0] == b[0] == c[0] {
      LexTransitive(a[1..], b[1..], c[1..]);
    }
  }

  lemma {:induction false} LexIrreflexive(a: seq<real>)
    ensures !LexLess(a, a)
  {
    if a != [] {
      LexIrreflexive(a[1..]);
    }
  }

  /** `std::min_element`: the first element whose key is least. */
  function ArgMin(c: seq<int>, key: int -> seq<real>): (r: int)
    requires c != []
    ensures r in c
    ensures forall x :: x in c ==> !LexLess(key(x), key(r))
  {
    var last := c[|c| - 1];
    if |c| == 1 then
      LexIrreflexive(key(last));
      last
    else
      var m := ArgMin(c[..|c| - 1], key);
      ArgMinStep(c, key, m);
      if LexLess(key(last), key(m)) then last else m
  }

  lemma ArgMinStep(c: seq<int>, key: int -> seq<real>, m: int)
    requires |c| > 1
    requires m in c[..|c| - 1]
    requires forall x :: x in c[..|c| - 1] ==> !LexLess(key(x), key(m))
    ensures var last := c[|c| - 1]; var r := if LexLess(key(last), key(m)) then last else m;
            r in c && forall x :: x in c ==> !LexLess(key(x), key(r))
  {
    var last := c[|c| - 1];
    var r := if LexLess(key(last), key(m)) then last else m;
    forall x | x in c
      ensures !LexLess(key(x), key(r))
    {
      assert c == c[..|c| - 1] + [last];
      if x == last {
        LexIrreflexive(key(last));
      } else if LexLess(key(last), key(m)) && LexLess(key(x), key(last)) {
        LexTransitive(key(x), key(last), key(m));
      }
    }
  }

  predicate SortedBy<T>(s: seq<T>, key: T -> seq<real>) {
    forall i, j :: 0 <= i < j < |s| ==> !LexLess(key(s[j]), key(s[i]))
  }

  /** Inserts behind every element that is not greater, so equal keys keep their order. */
  function Insert<T>(x: T, s: seq<T>, key: T -> seq<real>): (r: seq<T>)
    ensures multiset(r) == multiset(s) + multiset{x}
    ensures |r| == |s| + 1
  {
    if s == [] || !LexLess(key(x), key(s[|s| - 1])) then s + [x]
    else
      var t := Insert(x, s[..|s| - 1], key);
      assert s == s[..|s| - 1] + [s[|s| - 1]];
      t + [s[|s| - 1]]
  }

  /** `std::sort` by a key; ties keep input order. */
  function SortBy<T>(s: seq<T>, key: T -> seq<real>): (r: seq<T>)
    ensures multiset(r) == multiset(s)
    ensures |r| == |s|
  {
    if s == [] then []
    else
      assert s == s[..|s| - 1] + [s[|s| - 1]];
      Insert(s[|s| - 1], SortBy(s[..|s| - 1], key), key)
  }

  lemma InsertMembers<T>(x: T, s: seq<T>, key: T -> seq<real>)
    ensures forall y :: y in Insert(x, s, key) ==> y == x || y in s
  {
    hide Insert;
    forall y | y in Insert(x, s, key)
      ensures y == x || y in s
    {
      assert y in multiset(Insert(x, s, key));
      assert y in multiset(s) + multiset{x};
    }
  }

  lemma AppendSorted<T>(s: seq<T>, x: T, key: T -> seq<real>)
    requires SortedBy(s, key) && forall y :: y in s ==> !LexLess(key(x), key(y))
    ensures SortedBy(s + [x], key)
  {
    hide LexLess;
  }

  lemma {:induction false} InsertSorted<T>(x: T, s: seq<T>, key: T -> seq<real>)
    requires SortedBy(s, key)
    ensures SortedBy(Insert(x, s, key), key)
  {
    hide LexLess;
    if s == [] {
      assert Insert(x, s, key) == [x];
    } else {
      var n := |s| - 1;
      var last, rest := s[n], s[..n];
      forall y | y in rest
        ensures !LexLess(key(last), key(y))
      {
        var k :| 0 <= k < n && rest[k] == y;
        assert s[k] == y;
      }
      if LexLess(key(x), key(last)) {
        InsertSorted(x, rest, key);
        InsertMembers(x, rest, key);
        LexAsymmetric(key(x), key(last));
        AppendSorted(Insert(x, rest, key), last, key);
      } else {
        assert s == rest + [last];
        forall y | y in s
          ensures !LexLess(key(x), key(y))
        {
          if y in rest {
            LexNegative(key(x), key(last), key(y));
          }
        }
        AppendSorted(s, x, key);
      }
    }
  }

  lemma LexAsymmetric(a: seq<real>, b: seq<real>)
    ensures !(LexLess(a, b) && LexLess(b, a))
  {
    hide LexLess;
    if LexLess(a, b) && LexLess(b, a) {
      LexTransitive(a, b, a);
      LexIrreflexive(a);
    }
  }

  lemma LexNegative(a: seq<real>, b: seq<real>, c: seq<real>)
    requires !LexLess(a, b) && !LexLess(b, c)
    ensures !LexLess(a, c)
  {
    hide LexLess;
    LexTotal(a, b);
    if LexLess(a, c) && LexLess(b, a) {
      LexTransitive(b, a, c);
    }
  }

  /** What is not above a value is not above a greater one. */
  lemma LexAbove(a: seq<real>, b: seq<real>, c: seq<real>)
    requires LexLess(a, b) && !LexLess(a, c)
    ensures !LexLess(b, c)
  {
    hide LexLess;
    if LexLess(b, c) {
      LexTransitive(a, b, c);
    }
  }

  /** Sorting sorts. */
  lemma {:induction false} SortBySorted<T>(s: seq<T>, key: T -> seq<real>)
    ensures SortedBy(SortBy(s, key), key)
  {
    if s != [] {
      SortBySorted(s[..|s| - 1], key);
      InsertSorted(s[|s| - 1], SortBy(s[..|s| - 1], key), key);
    }
  }

  lemma SameElements<T>(a: seq<T>, b: seq<T>)
    requires multiset(a) == multiset(b)
    ensures forall x :: x in a <==> x in b
    ensures |a| == |b|
  {
    forall x
      ensures x in a <==> x in b
    {
      assert x in a <==> x in multiset(a);
      assert x in b <==> x in multiset(b);
    }
    assert |multiset(a)| == |a| && |multiset(b)| == |b|;
  }

  predicate Distinct<T(==)>(s: seq<T>) {
    forall i, j :: 0 <= i < j < |s| ==> s[i] != s[j]
  }

  lemma {:induction false} DistinctMultiset<T>(s: seq<T>)
    ensures Distinct(s) <==> forall x :: x in s ==> multiset(s)[x] == 1
  {
    if s != [] {
      var n := |s| - 1;
      assert s == s[..n] + [s[n]];
      DistinctMultiset(s[..n]);
      assert forall x :: x in s <==> x in s[..n] || x == s[n];
      if Distinct(s) {
        assert s[n] !in s[..n];
      }
      if forall x :: x in s ==> multiset(s)[x] == 1 {
        assert multiset(s)[s[n]] == multiset(s[..n])[s[n]] + 1;
        assert s[n] !in multiset(s[..n]);
        forall x | x in s[..n]
          ensures multiset(s[..n])[x] == 1
        {
          assert multiset(s)[x] == 1;
        }
      }
    }
  }

  lemma SortKeepsDistinct<T>(a: seq<T>, b: seq<T>)
    requires multiset(a) == multiset(b) && Distinct(a)
    ensures Distinct(b)
  {
    DistinctMultiset(a);
    DistinctMultiset(b);
    SameElements(a, b);
  }

  lemma Inhabited(s: set<int>)
    ensures s == {} || exists x :: x in s
  {
    if forall x :: x !in s {
      assert s == {};
    }
  }

  lemma Nonempty<T>(s: set<T>)
    ensures s == {} || exists x :: x in s
  {
    if forall x :: x !in s {
      assert s == {};
    }
  }

  lemma {:induction false} LeastExists(s: set<int>)
    requires s != {}
    ensures exists m :: m in s && forall y :: y in s ==> m <= y
  {
    Inhabited(s);
    var x :| x in s;
    var rest := s - {x};
    assert s == rest + {x};
    if rest != {} {
      LeastExists(rest);
      var m :| m in rest && forall y :: y in rest ==> m <= y;
      var w := if x < m then x else m;
      assert w in s;
      forall y | y in s
        ensures w <= y
      {
        assert y == x || y in rest;
      }
    }
  }

  function Least(s: set<int>): (m: int)
    requires s != {}
    ensures m in s && forall y :: y in s ==> m <= y
  {
    LeastExists(s);
    var m :| m in s && forall y :: y in s ==> m <= y;
    m
  }

  predicate Increasing(r: seq<int>) {
    forall i, j :: 0 <= i < j < |r| ==> r[i] < r[j]
  }

  /** The elements of a `std::set` or the keys of a `std::map`, in iteration order. */
  function Ascending(s: set<int>): (r: seq<int>)
    ensures Increasing(r) && |r| == |s|
    ensures forall x :: x in r <==> x in s
  {
    if s == {} then []
    else
      var m := Least(s);
      var t := Ascending(s - {m});
      AscendingStep(s, m, t);
      [m] + t
  }

  lemma AscendingDistinct(s: set<int>)
    ensures Distinct(Ascending(s)) && |Ascending(s)| == |s| && forall t :: t in Ascending(s) <==> t in s
  {
  }

  lemma AscendingStep(s: set<int>, m: int, t: seq<int>)
    requires m in s && forall y :: y in s ==> m <= y
    requires Increasing(t) && |t| == |s - {m}|
    requires forall x :: x in t <==> x in s - {m}
    ensures Increasing([m] + t) && |[m] + t| == |s|
    ensures forall x :: x in [m] + t <==> x in s
  {
    forall j | 0 <= j < |t|
      ensures m < t[j]
    {
      assert t[j] in t;
      assert t[j] in s - {m};
    }
  }

  // ----- streaks -----

  /** In how many of the latest sets in a row an element was. */
  function Streak<T(==)>(log: seq<set<T>>, x: T): nat {
    if log == [] || x !in log[|log| - 1] then 0
    else 1 + Streak(log[..|log| - 1], x)
  }

  /** A streak of length `k` means the element was in each of the last `k` sets. */
  lemma {:induction false} StreakMeans<T>(log: seq<set<T>>, x: T, k: nat)
    ensures Streak(log, x) <= |log|
    ensures k <= Streak(log, x) <==> k <= |log| && forall i :: |log| - k <= i < |log| ==> x in log[i]
  {
    if log != [] {
      var rest := log[..|log| - 1];
      if k > 0 {
        StreakMeans(rest, x, k - 1);
        if x in log[|log| - 1] && k <= |log| {
          assert (forall i :: |log| - k <= i < |log| ==> x in log[i])
            <==> (forall i :: |rest| - (k - 1) <= i < |rest| ==> x in rest[i]);
        }
      } else {
        StreakMeans(rest, x, 0);
      }
    }
  }

  /** How long the latest entry has been repeated. */
  function SameRun<T(==)>(log: seq<T>): nat {
    if log == [] then 0
    else if |log| == 1 || log[|log| - 1] != log[|log| - 2] then 1
    else 1 + SameRun(log[..|log| - 1])
  }

  /** A run of length `k` means the last `k` entries are equal. */
  lemma {:induction false} SameRunMeans<T>(log: seq<T>, k: nat)
    ensures SameRun(log) <= |log|
    ensures k <= SameRun(log) <==> k <= |log| && forall i :: |log| - k <= i < |log| ==> log[i] == log[|log| - 1]
  {
    if log != [] {
      var n := |log| - 1;
      var rest := log[..n];
      if k <= 1 {
        SameRunMeans(rest, 0);
      } else {
        SameRunMeans(rest, k - 1);
        if n > 0 && log[n] == log[n - 1] && k <= |log| {
          assert (forall i :: |log| - k <= i < |log| ==> log[i] == log[n])
            <==> (forall i :: |rest| - (k - 1) <= i < |rest| ==> rest[i] == rest[n - 1]);
        }
        if n > 0 && log[n] != log[n - 1] && k <= |log| {
          assert |log| - k <= n - 1 < |log|;
        }
      }
    }
  }
}
