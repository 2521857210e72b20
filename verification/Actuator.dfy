/** `Actuator` of src/actuator.cpp: all-or-nothing mask batches with reverse rollback, and
the bookkeeping that later gives every thread its own mask back. */
module Actuator {
  import opened Lists

  /** A set of CPUs; the sorted vectors of the source without their order. */
  type Mask = set<int>

  const ESRCH: int := 3
  const EIO: int := 5
  const EINVAL: int := 22

  /** How the kernel answers one call: it takes the mask, finds the thread gone, or refuses.
  A refusal may leave another mask behind (src/actuator.cpp:24-26: the mask read back after
  the system call differs from the requested one). */
  datatype Reply = Accept | Vanish | Refuse(error: int, left: Option<Mask>)

  datatype Kind = Taken | Missing | Refused

  function KindOf(r: Reply): Kind {
    match r
    case Accept => Taken
    case Vanish => Missing
    case Refuse(_, _) => Refused
  }

  /** Among the calls of a range one was answered in that way. */
  ghost predicate Heard(oracle: nat -> Reply, from: nat, to: nat, kind: Kind) {
    exists n: nat :: from <= n < to && KindOf(oracle(n)) == kind
  }

  lemma HeardNow(oracle: nat -> Reply, n: nat)
    ensures Heard(oracle, n, n + 1, KindOf(oracle(n)))
  {
  }

  /** What was heard in a part of a range was heard in the range. */
  lemma HeardGrows(oracle: nat -> Reply, from: nat, mid: nat, to: nat)
    requires from <= mid <= to
    ensures forall kind :: Heard(oracle, from, mid, kind) || Heard(oracle, mid, to, kind) ==> Heard(oracle, from, to, kind)
  {
  }

  lemma RefusalHeard(oracle: nat -> Reply, from: nat, to: nat)
    requires Heard(oracle, from, to, Refused)
    ensures exists n: nat :: oracle(n).Refuse?
  {
    var n: nat :| from <= n < to && KindOf(oracle(n)) == Refused;
    assert oracle(n).Refuse?;
  }

  /** The affinity masks of the live threads.  `oracle` is any behaviour of the kernel. */
  class Kernel {
    const oracle: nat -> Reply
    var calls: nat
    var masks: map<int, Mask>

    constructor (oracle: nat -> Reply, masks: map<int, Mask>)
      ensures this.masks == masks && this.oracle == oracle && calls == 0
    {
      this.oracle, this.masks, calls := oracle, masks, 0;
    }

    /** A refused write changes nothing. */
    ghost predicate Exact() {
      forall n: nat :: oracle(n).Refuse? ==> oracle(n).left.None?
    }

    lemma ExactMeans()
      ensures Exact() ==> forall n: nat :: oracle(n).Refuse? ==> oracle(n).left.None?
    {
    }

    method Get(tid: int) returns (m: Mask)
      ensures m == MaskOf(masks, tid)
    {
      m := if tid in masks then masks[tid] else {};
    }

    /** Threads end and others start; the masks of the rest are left alone. */
    method Elapse(ended: set<int>, started: map<int, Mask>)
      modifies this
      ensures masks == old(masks) - ended + started && calls == old(calls)
    {
      masks := masks - ended + started;
    }

    /** A call for a thread that is not there finds it gone; otherwise the oracle decides. */
    method Set(tid: int, cpus: Mask) returns (error: int)
      modifies this
      ensures calls == old(calls) + 1
      ensures error == 0 <==> tid in old(masks) && oracle(old(calls)).Accept?
      ensures error == ESRCH <==> tid !in old(masks) || oracle(old(calls)).Vanish?
      ensures error == 0 ==> masks == old(masks)[tid := cpus]
      ensures error == ESRCH ==> masks == old(masks) - {tid}
      ensures error != 0 && error != ESRCH ==> masks == Leftover(old(masks), tid, oracle(old(calls)).left)
    {
      var reply := oracle(calls);
      calls := calls + 1;
      if tid !in masks {
        assert masks == masks - {tid};
        return ESRCH;
      }
      match reply
      case Accept =>
        masks := masks[tid := cpus];
        return 0;
      case Vanish =>
        masks := masks - {tid};
        return ESRCH;
      case Refuse(e, left) =>
        if left.Some? {
          masks := masks[tid := left.value];
        }
        return if e == 0 || e == ESRCH then EIO else e;
    }
  }

  /** Of the threads that start, those whose ids were never seen before. */
  function Fresh(started: map<int, Mask>, seen: set<int>): map<int, Mask> {
    map t | t in started && t !in seen :: started[t]
  }

  // ----- where a thread's own mask comes from -----

  /** Notes that decide the mask a thread gets back. */
  datatype Note =
    | Declared(tid: int, mask: Mask)
    | Born(tid: int, parent: int, observed: Mask)
    | Touched(tid: int, before: Mask)
    | Forgotten(tid: int)
    | AllForgotten

  /** The restore mask after a list of notes (lines 32-39, 64, 127-149). */
  function Origin(log: seq<Note>, tid: int): Option<Mask> {
    if log == [] then None
    else
      var e, rest := log[|log| - 1], log[..|log| - 1];
      var known := Origin(rest, tid);
      match e
      case Declared(t, m) => if t == tid then Some(m) else known
      case Born(t, p, o) =>
        if t == tid && known.None? then Some(if Origin(rest, p).Some? then Origin(rest, p).value else o) else known
      case Touched(t, m) => if t == tid && known.None? then Some(m) else known
      case Forgotten(t) => if t == tid then None else known
      case AllForgotten => None
  }

  /** The application's latest declaration that was not forgotten since. */
  function LatestDeclaration(log: seq<Note>, tid: int): Option<Mask> {
    if log == [] then None
    else
      var e, rest := log[|log| - 1], log[..|log| - 1];
      if e.Declared? && e.tid == tid then Some(e.mask)
      else if e.AllForgotten? || (e.Forgotten? && e.tid == tid) then None
      else LatestDeclaration(rest, tid)
  }

  /** How many notes there were before the first one about the thread since it was forgotten. */
  function FirstMark(log: seq<Note>, tid: int): Option<nat> {
    if log == [] then None
    else
      var e, rest := log[|log| - 1], log[..|log| - 1];
      if e.AllForgotten? || (e.Forgotten? && e.tid == tid) then None
      else if FirstMark(rest, tid).Some? then FirstMark(rest, tid)
      else if e.tid == tid then Some(|rest|) else None
  }

  /** The mask that a first note about a thread stands for: what its parent has, what was
  observed at birth, what it had before the first policy write, or what it declared. */
  function MarkedMask(log: seq<Note>, i: nat): Option<Mask>
    requires i < |log|
  {
    match log[i]
    case Declared(_, m) => Some(m)
    case Born(_, p, o) => Some(if Origin(log[..i], p).Some? then Origin(log[..i], p).value else o)
    case Touched(_, m) => Some(m)
    case Forgotten(_) => None
    case AllForgotten => None
  }

  lemma {:induction false} FirstMarkRange(log: seq<Note>, tid: int)
    ensures FirstMark(log, tid).Some? ==> FirstMark(log, tid).value < |log|
    ensures FirstMark(log, tid).Some? ==> MarkedMask(log, FirstMark(log, tid).value).Some?
  {
    if log != [] {
      FirstMarkRange(log[..|log| - 1], tid);
      hide Origin;
    }
  }

  /** A thread gets back the mask it declared last; without a declaration, the mask of its
  parent, or the one it was first seen with. */
  lemma {:induction false} OriginMeans(log: seq<Note>, tid: int)
    ensures FirstMark(log, tid).Some? ==> FirstMark(log, tid).value < |log|
    ensures Origin(log, tid) ==
      if LatestDeclaration(log, tid).Some? then LatestDeclaration(log, tid)
      else if FirstMark(log, tid).Some? then MarkedMask(log, FirstMark(log, tid).value) else None
  {
    FirstMarkRange(log, tid);
    if log != [] {
      var n := |log| - 1;
      var e, rest := log[n], log[..n];
      OriginMeans(rest, tid);
      FirstMarkRange(rest, tid);
      if FirstMark(rest, tid).Some? {
        var i := FirstMark(rest, tid).value;
        assert rest[..i] == log[..i];
      }
    }
  }

  // ----- results -----

  datatype ApplyResult = ApplyResult(
    success: bool,
    requested: nat,
    applied: nat,
    rolledBack: nat,
    rollbackSuccess: bool,
    error: int,
    committed: set<int>,
    vanished: set<int>)

  datatype RestoreResult = RestoreResult(requested: nat, restored: nat, vanished: nat, failed: nat)

  /** What `backend.get` answers. */
  function MaskOf(masks: map<int, Mask>, tid: int): Mask {
    if tid in masks then masks[tid] else {}
  }

  /** What a refused call leaves behind. */
  function Leftover(masks: map<int, Mask>, tid: int, left: Option<Mask>): map<int, Mask> {
    if left.Some? then masks[tid := left.value] else masks
  }

  lemma LeftoverKeys(masks: map<int, Mask>, tid: int, left: Option<Mask>)
    requires left.Some? ==> tid in masks
    ensures Leftover(masks, tid, left).Keys == masks.Keys
  {
  }

  /** Threads may be gone, and the refused one may have the mask that its call left; otherwise
  nothing differs from an earlier state. */
  ghost predicate AsBefore(before: map<int, Mask>, now: map<int, Mask>, refused: int, left: Option<Mask>) {
    && now.Keys <= before.Keys
    && (forall t :: t in now ==> now[t] == if t == refused && left.Some? then left.value else before[t])
  }

  /** The live masks are what they were exactly if the refused call left its thread's mask alone. */
  lemma UndoneExactly(before: map<int, Mask>, now: map<int, Mask>, refused: int, left: Option<Mask>)
    requires AsBefore(before, now, refused, left) && refused in now
    ensures (forall t :: t in now ==> now[t] == before[t]) <==> left.None? || left.value == before[refused]
  {
    if left.Some? && left.value != before[refused] {
      assert now[refused] == left.value;
    }
  }

  /** Outside those threads every mask is as before; nobody has appeared. */
  ghost predicate Outside(before: map<int, Mask>, now: map<int, Mask>, touched: set<int>) {
    now.Keys <= before.Keys && forall t :: t in now && t !in touched ==> now[t] == before[t]
  }

  lemma OutsideSelf(m: map<int, Mask>, touched: set<int>)
    ensures Outside(m, m, touched)
  {
  }

  lemma OutsideTrans(a: map<int, Mask>, b: map<int, Mask>, c: map<int, Mask>, x: set<int>, y: set<int>, touched: set<int>)
    requires Outside(a, b, x) && Outside(b, c, y) && x <= touched && y <= touched
    ensures Outside(a, c, touched)
  {
  }

  lemma ReturnedOutside(m0: map<int, Mask>, m: map<int, Mask>, restore: map<int, Mask>, released: set<int>, refused: set<int>, touched: set<int>)
    requires Returned(m0, m, restore, released, refused) && released <= touched && refused <= touched
    ensures Outside(m0, m, touched)
  {
  }

  lemma LeftoverOutside(m: map<int, Mask>, t: int, left: Option<Mask>)
    requires left.Some? ==> t in m
    ensures Outside(m, Leftover(m, t, left), {t})
  {
  }

  lemma SetOutside(m: map<int, Mask>, t: int, cpus: Mask)
    ensures t in m ==> Outside(m, m[t := cpus], {t})
    ensures Outside(m, m - {t}, {t})
  {
  }

  /** Those threads have the requested masks, the others are as before or gone. */
  ghost predicate Written(before: map<int, Mask>, now: map<int, Mask>, wanted: map<int, Mask>, done: set<int>) {
    && now.Keys <= before.Keys && done <= wanted.Keys && done <= now.Keys
    && (forall t :: t in done ==> now[t] == wanted[t])
    && (forall t :: t in now && t !in done ==> now[t] == before[t])
  }

  /** A write that failed: the mask was empty, or a call in the range was refused and left this. */
  ghost predicate Rejected(oracle: nat -> Reply, from: nat, to: nat, cpus: Mask, left: Option<Mask>) {
    || (cpus == {} && left == None)
    || (exists n: nat :: from <= n < to && oracle(n).Refuse? && oracle(n).left == left)
  }

  lemma RejectedIn(oracle: nat -> Reply, from: nat, to: nat, cpus: Mask, left: Option<Mask>, from': nat, to': nat)
    requires Rejected(oracle, from, to, cpus, left) && from' <= from && to <= to'
    ensures Rejected(oracle, from', to', cpus, left)
  {
  }

  /** A rejected write of a nonempty mask was refused by the kernel. */
  lemma RejectedHeard(oracle: nat -> Reply, from: nat, to: nat, cpus: Mask, left: Option<Mask>)
    requires Rejected(oracle, from, to, cpus, left) && cpus != {}
    ensures Heard(oracle, from, to, Refused)
    ensures (forall n: nat :: oracle(n).Refuse? ==> oracle(n).left.None?) ==> left.None?
  {
    var n: nat :| from <= n < to && oracle(n).Refuse? && oracle(n).left == left;
    assert KindOf(oracle(n)) == Refused;
  }

  /** Every touched thread has a restore mask; those known before keep theirs. */
  ghost predicate Remembers(log: seq<Note>, restore: map<int, Mask>) {
    && (forall t :: t in restore ==> Origin(log, t) == Some(restore[t]))
    && (forall t :: t !in restore ==> Origin(log, t) == None)
  }

  lemma RememberTouched(log: seq<Note>, restore: map<int, Mask>, t: int, m: Mask)
    requires Remembers(log, restore) && t !in restore
    ensures Remembers(log + [Touched(t, m)], restore[t := m])
  {
    var longer := log + [Touched(t, m)];
    assert longer[..|longer| - 1] == log;
  }

  lemma RememberDeclared(log: seq<Note>, restore: map<int, Mask>, t: int, m: Mask)
    requires Remembers(log, restore)
    ensures Remembers(log + [Declared(t, m)], restore[t := m])
  {
    var longer := log + [Declared(t, m)];
    assert longer[..|longer| - 1] == log;
  }

  lemma RememberBorn(log: seq<Note>, restore: map<int, Mask>, t: int, p: int, o: Mask)
    requires Remembers(log, restore)
    ensures Remembers(log + [Born(t, p, o)],
                      if t in restore then restore else restore[t := if p in restore then restore[p] else o])
  {
    var longer := log + [Born(t, p, o)];
    assert longer[..|longer| - 1] == log;
  }

  lemma RememberForgotten(log: seq<Note>, restore: map<int, Mask>, t: int)
    requires Remembers(log, restore)
    ensures Remembers(log + [Forgotten(t)], restore - {t})
  {
    var longer := log + [Forgotten(t)];
    assert longer[..|longer| - 1] == log;
  }

  lemma RememberNothing(log: seq<Note>)
    ensures Remembers(log + [AllForgotten], map[])
  {
    var longer := log + [AllForgotten];
    assert longer[..|longer| - 1] == log;
  }

  // ----- one batch on the way -----

  /** The threads done so far have their masks, the gone ones are gone, the rest is untouched. */
  ghost predicate Progress(m0: map<int, Mask>, m: map<int, Mask>,
                           wanted: map<int, Mask>, live: set<int>, previous: map<int, Mask>,
                           todo: set<int>, done: set<int>, vanished: set<int>) {
    && todo + done + vanished == wanted.Keys && todo !! done && todo !! vanished && done !! vanished
    && (forall t :: t in vanished ==> t !in live || t !in m)
    && (forall t :: t in done ==> t in m && m[t] == wanted[t])
    && (forall t :: t in done ==> t in previous && t in m0 && previous[t] == m0[t])
    && m.Keys <= m0.Keys
    && (forall t :: t in m && t !in done ==> m[t] == m0[t])
    && (forall t :: t in todo && t in m0 ==> t in m)
  }

  /** Two maps that differ in one key at most. */
  ghost predicate Extends(a: map<int, Mask>, b: map<int, Mask>, t: int) {
    forall u :: u in a && u != t ==> u in b && a[u] == b[u]
  }

  /** The only new notes are first sights, with the masks from before the batch. */
  ghost predicate Seen(log0: seq<Note>, log: seq<Note>, m0: map<int, Mask>) {
    && |log0| <= |log| && log[..|log0|] == log0
    && (forall i :: |log0| <= i < |log| ==> log[i].Touched? && log[i].before == MaskOf(m0, log[i].tid))
  }

  lemma SeenMore(log0: seq<Note>, log: seq<Note>, m0: map<int, Mask>, t: int)
    requires Seen(log0, log, m0)
    ensures Seen(log0, log + [Touched(t, MaskOf(m0, t))], m0)
  {
  }

  lemma SeenNothing(log0: seq<Note>, m0: map<int, Mask>)
    ensures Seen(log0, log0, m0)
  {
  }

  lemma ExtendsOne(a: map<int, Mask>, t: int, m: Mask)
    ensures Extends(a, a[t := m], t)
  {
  }

  lemma ProgressBegins(m0: map<int, Mask>, wanted: map<int, Mask>, live: set<int>)
    ensures Progress(m0, m0, wanted, live, map[], wanted.Keys, {}, {})
  {
  }

  lemma ProgressTodo(m0: map<int, Mask>, m: map<int, Mask>,
                     wanted: map<int, Mask>, live: set<int>, previous: map<int, Mask>,
                     todo: set<int>, done: set<int>, vanished: set<int>)
    requires Progress(m0, m, wanted, live, previous, todo, done, vanished)
    ensures todo <= wanted.Keys && todo !! done
    ensures forall t :: t in todo ==> MaskOf(m, t) == MaskOf(m0, t)
  {
  }

  lemma ProgressVanished(m0: map<int, Mask>, m: map<int, Mask>, now: map<int, Mask>,
                         wanted: map<int, Mask>, live: set<int>, previous: map<int, Mask>, previous': map<int, Mask>,
                         todo: set<int>, done: set<int>, vanished: set<int>, t: int)
    requires Progress(m0, m, wanted, live, previous, todo, done, vanished)
    requires t in todo && ((t !in live && now == m) || now == m - {t})
    requires Extends(previous, previous', t)
    ensures Progress(m0, now, wanted, live, previous', todo - {t}, done, vanished + {t})
  {
  }

  lemma ProgressWritten(m0: map<int, Mask>, m: map<int, Mask>,
                        wanted: map<int, Mask>, live: set<int>, previous: map<int, Mask>,
                        todo: set<int>, done: set<int>, vanished: set<int>, t: int, before: Mask)
    requires Progress(m0, m, wanted, live, previous, todo, done, vanished)
    requires t in todo && t in m && before == MaskOf(m, t)
    ensures Progress(m0, m[t := wanted[t]], wanted, live, previous[t := before], todo - {t}, done + {t}, vanished)
  {
  }

  /** Writing back what the done threads had before gives the state before the batch. */
  ghost predicate Rollable(m0: map<int, Mask>, m: map<int, Mask>, previous: map<int, Mask>, done: set<int>,
                           refused: int, left: Option<Mask>) {
    && m.Keys <= m0.Keys && refused !in done
    && (forall t :: t in done ==> t in previous && t in m0 && previous[t] == m0[t])
    && (forall t :: t in m && t !in done ==> m[t] == if t == refused && left.Some? then left.value else m0[t])
  }

  lemma RollableKnows(m0: map<int, Mask>, m: map<int, Mask>, previous: map<int, Mask>, done: set<int>, refused: int, left: Option<Mask>)
    requires Rollable(m0, m, previous, done, refused, left)
    ensures m.Keys <= m0.Keys && forall t :: t in done ==> t in previous
  {
  }

  lemma RollableStep(m0: map<int, Mask>, m: map<int, Mask>, now: map<int, Mask>,
                     previous: map<int, Mask>, todo: set<int>, t: int, refused: int, left: Option<Mask>)
    requires Rollable(m0, m, previous, todo, refused, left) && t in todo && t in previous
    requires (t in m && now == m[t := previous[t]]) || now == m - {t}
    ensures Rollable(m0, now, previous, todo - {t}, refused, left)
  {
  }

  lemma RollableDone(m0: map<int, Mask>, m: map<int, Mask>, previous: map<int, Mask>, refused: int, left: Option<Mask>)
    requires Rollable(m0, m, previous, {}, refused, left)
    ensures AsBefore(m0, m, refused, left)
  {
  }

  /** What a rollback finds when the write of one more thread was refused. */
  lemma ProgressFails(m0: map<int, Mask>, m: map<int, Mask>, now: map<int, Mask>,
                      wanted: map<int, Mask>, live: set<int>, previous: map<int, Mask>, previous': map<int, Mask>,
                      todo: set<int>, done: set<int>, vanished: set<int>, t: int, left: Option<Mask>)
    requires Progress(m0, m, wanted, live, previous, todo, done, vanished)
    requires t in todo && Extends(previous, previous', t)
    requires now == Leftover(m, t, left) && (left.Some? ==> t in m)
    ensures Rollable(m0, now, previous', done, t, left)
  {
  }

  lemma ProgressEnds(m0: map<int, Mask>, m: map<int, Mask>,
                     wanted: map<int, Mask>, live: set<int>, previous: map<int, Mask>,
                     done: set<int>, vanished: set<int>)
    requires Progress(m0, m, wanted, live, previous, {}, done, vanished)
    ensures done + vanished == wanted.Keys && done !! vanished
    ensures forall t :: t in vanished ==> t !in live || t !in m
    ensures Written(m0, m, wanted, done) && m.Keys <= m0.Keys
  {
    forall t
      ensures t in done + vanished <==> t in wanted.Keys
    {
      assert t in {} + done + vanished <==> t in wanted.Keys;
    }
    assert forall t :: t in done ==> t in m.Keys;
    assert done <= m.Keys && done <= wanted.Keys;
  }

  /** The elements of a set in some order, each once. */
  ghost predicate ListOf(s: seq<int>, all: set<int>) {
    Distinct(s) && |s| == |all| && forall t :: t in s <==> t in all
  }

  lemma ListOfMore(s: seq<int>, all: set<int>, t: int)
    requires ListOf(s, all) && t !in all
    ensures ListOf(s + [t], all + {t})
  {
    forall i | 0 <= i < |s|
      ensures s[i] != t
    {
      assert s[i] in s;
    }
  }

  lemma ListOfMembers(s: seq<int>, all: set<int>)
    requires ListOf(s, all)
    ensures Distinct(s) && |s| == |all| && forall t :: t in s <==> t in all
  {
  }

  lemma ListOfLess(s: seq<int>, all: set<int>)
    requires ListOf(s, all) && s != []
    ensures var n := |s| - 1; s[n] in all && ListOf(s[..n], all - {s[n]})
  {
    var n := |s| - 1;
    var t := s[n];
    assert t in s;
    forall u
      ensures u in s[..n] <==> u in all - {t}
    {
      if u in s[..n] {
        assert u in s;
      }
      if u in s && u != t {
        var j :| 0 <= j < |s| && s[j] == u;
        assert s[..n][j] == u;
      }
    }
  }

  lemma ListOfSet(s: seq<int>, all: set<int>)
    requires ListOf(s, all)
    ensures (set t | t in s) == all
  {
    forall t
      ensures t in (set t | t in s) <==> t in all
    {
    }
  }

  /** Marking one more thread of a batch. */
  lemma MarkedMore(acted: set<int>, done: set<int>, t: int)
    requires done <= acted
    ensures acted + done == acted && acted + {t} == acted + (done + {t})
  {
  }

  lemma ListOfNone()
    ensures ListOf([], {})
  {
  }

  // ----- giving masks back -----

  /** The released threads are gone or have their restore masks; of the others only those whose
  write was refused may have changed. */
  ghost predicate Returned(m0: map<int, Mask>, m: map<int, Mask>, restore: map<int, Mask>, released: set<int>, refused: set<int>) {
    && released <= restore.Keys && m.Keys <= m0.Keys
    && (forall t :: t in released && t in m ==> m[t] == restore[t])
    && (forall t :: t in m0 && t !in released ==> t in m)
    && (forall t :: t in m && t !in released && t !in refused ==> m[t] == m0[t])
  }

  lemma ReturnedNothing(m0: map<int, Mask>, restore: map<int, Mask>)
    ensures Returned(m0, m0, restore, {}, {})
  {
  }

  lemma ReturnedMeans(m0: map<int, Mask>, m: map<int, Mask>, restore: map<int, Mask>, released: set<int>, refused: set<int>)
    requires Returned(m0, m, restore, released, refused)
    ensures m.Keys <= m0.Keys && forall t :: t in released && t in m ==> t in restore && m[t] == restore[t]
  {
  }

  /** The requested threads that the policy has written, as far as they were visited. */
  ghost predicate Visited(tids: set<int>, todo: set<int>, acted: set<int>, released: set<int>, refused: set<int>) {
    && todo <= tids && released !! refused
    && (forall t :: t in released || t in refused <==> t in tids && t !in todo && t in acted)
  }

  lemma VisitedNothing(tids: set<int>, acted: set<int>)
    ensures Visited(tids, tids, acted, {}, {})
  {
  }

  lemma VisitedMore(tids: set<int>, todo: set<int>, acted: set<int>, released: set<int>, refused: set<int>, t: int)
    requires Visited(tids, todo, acted, released, refused) && t in todo
    ensures t !in released && t !in refused
    ensures t in acted ==> Visited(tids, todo - {t}, acted, released + {t}, refused)
    ensures t in acted ==> Visited(tids, todo - {t}, acted, released, refused + {t})
    ensures t !in acted ==> Visited(tids, todo - {t}, acted, released, refused)
  {
  }

  lemma VisitedEnds(tids: set<int>, acted: set<int>, released: set<int>, refused: set<int>)
    requires Visited(tids, {}, acted, released, refused)
    ensures released <= tids * acted && refused == tids * acted - released
    ensures |tids * acted| == |released| + |refused| && (|refused| == 0 <==> released == tids * acted)
  {
    forall t
      ensures t in tids * acted <==> t in released + refused
    {
    }
    assert tids * acted == released + refused;
  }

  /** How many threads got their masks back, were gone or were refused, and what the kernel said. */
  ghost predicate Tally(oracle: nat -> Reply, from: nat, to: nat, m0: map<int, Mask>, m: map<int, Mask>,
                        restored: nat, vanished: nat, failed: nat, released: set<int>, refused: set<int>) {
    && to == from + |released| + |refused| && restored + vanished == |released| && failed == |refused|
    && (failed > 0 ==> Heard(oracle, from, to, Refused))
    && (restored > 0 ==> Heard(oracle, from, to, Taken))
    && (m.Keys != m0.Keys ==> Heard(oracle, from, to, Missing))
  }

  lemma TallyNothing(oracle: nat -> Reply, from: nat, m0: map<int, Mask>)
    ensures Tally(oracle, from, from, m0, m0, 0, 0, 0, {}, {})
  {
  }

  lemma TallyMore(oracle: nat -> Reply, from: nat, mid: nat, to: nat, m0: map<int, Mask>, m1: map<int, Mask>, m2: map<int, Mask>,
                  restored: nat, vanished: nat, failed: nat, released0: set<int>, refused0: set<int>,
                  released: set<int>, refused: set<int>, t: int, error: int)
    requires Tally(oracle, from, mid, m0, m1, restored, vanished, failed, released0, refused0) && to == mid + 1 && t !in released0 && t !in refused0
    requires if error == 0 || error == ESRCH then released == released0 + {t} && refused == refused0
             else released == released0 && refused == refused0 + {t}
    requires error != 0 && error != ESRCH ==> Heard(oracle, mid, to, Refused)
    requires error == 0 ==> Heard(oracle, mid, to, Taken)
    requires m2.Keys != m1.Keys ==> Heard(oracle, mid, to, Missing)
    ensures Tally(oracle, from, to, m0, m2, restored + (if error == 0 then 1 else 0), vanished + (if error == ESRCH then 1 else 0),
                  failed + (if error == 0 || error == ESRCH then 0 else 1), released, refused)
  {
    hide Heard;
    HeardGrows(oracle, from, mid, to);
  }

  lemma TallyMeans(oracle: nat -> Reply, from: nat, to: nat, m0: map<int, Mask>, m: map<int, Mask>,
                   restored: nat, vanished: nat, failed: nat, released: set<int>, refused: set<int>)
    requires Tally(oracle, from, to, m0, m, restored, vanished, failed, released, refused)
    ensures to == from + |released| + |refused| && restored + vanished == |released| && failed == |refused|
    ensures failed > 0 ==> Heard(oracle, from, to, Refused)
    ensures restored > 0 ==> Heard(oracle, from, to, Taken)
    ensures m.Keys != m0.Keys ==> Heard(oracle, from, to, Missing)
  {
    hide Heard;
  }

  /** The threads of a set, and no others, are forgotten. */
  ghost predicate Forgets(log0: seq<Note>, log: seq<Note>, released: set<int>) {
    && |log0| <= |log| && log[..|log0|] == log0
    && (forall i :: |log0| <= i < |log| ==> log[i].Forgotten? && log[i].tid in released)
    && (forall t :: t in released ==> exists i :: |log0| <= i < |log| && log[i] == Forgotten(t))
  }

  lemma ForgetsNothing(log: seq<Note>)
    ensures Forgets(log, log, {})
  {
  }

  lemma ForgetsMore(log0: seq<Note>, log: seq<Note>, released: set<int>, t: int)
    requires Forgets(log0, log, released)
    ensures Forgets(log0, log + [Forgotten(t)], released + {t})
  {
    var more := log + [Forgotten(t)];
    assert more[|log|] == Forgotten(t);
    forall u | u in released
      ensures exists i :: |log0| <= i < |more| && more[i] == Forgotten(u)
    {
      var i :| |log0| <= i < |log| && log[i] == Forgotten(u);
      assert more[i] == Forgotten(u);
    }
  }

  class Actuator {
    const kernel: Kernel
    var restoreMasks: map<int, Mask>
    var acted: set<int>
    ghost var log: seq<Note>

    ghost predicate Valid()
      reads this
    {
      acted <= restoreMasks.Keys && Remembers(log, restoreMasks)
    }

    constructor (kernel: Kernel)
      ensures Valid() && this.kernel == kernel && acted == {} && restoreMasks == map[] && log == []
    {
      this.kernel, restoreMasks, acted, log := kernel, map[], {}, [];
    }

    /** Line 32. */
    method NoteApplicationMask(tid: int, cpus: Mask)
      requires Valid()
      modifies this`restoreMasks, this`log
      ensures Valid() && log == old(log) + [Declared(tid, cpus)]
    {
      hide Remembers;
      RememberDeclared(log, restoreMasks, tid, cpus);
      restoreMasks, log := restoreMasks[tid := cpus], log + [Declared(tid, cpus)];
    }

    /** Lines 34-39. */
    method NoteInheritedMask(tid: int, parent: int, observed: Mask)
      requires Valid()
      modifies this`restoreMasks, this`log
      ensures Valid() && log == old(log) + [Born(tid, parent, observed)]
    {
      hide Remembers;
      RememberBorn(log, restoreMasks, tid, parent, observed);
      log := log + [Born(tid, parent, observed)];
      if tid !in restoreMasks {
        restoreMasks := restoreMasks[tid := if parent in restoreMasks then restoreMasks[parent] else observed];
      }
    }

    /** Line 155.  A thread without a restore mask must not be marked. */
    method NotePolicyAction(tid: int)
      modifies this`acted
      ensures acted == old(acted) + {tid}
      ensures old(Valid()) ==> (Valid() <==> tid in restoreMasks)
    {
      acted := acted + {tid};
    }

    /** Lines 62-64: remembers what the thread had before the policy first writes its mask. */
    method Touch(tid: int) returns (before: Mask)
      requires Valid()
      modifies this`restoreMasks, this`log
      ensures Valid() && tid in restoreMasks && old(restoreMasks).Keys <= restoreMasks.Keys
      ensures before == MaskOf(kernel.masks, tid)
      ensures log == old(log) || log == old(log) + [Touched(tid, before)]
    {
      before := kernel.Get(tid);
      if tid !in restoreMasks {
        RememberTouched(log, restoreMasks, tid, before);
        restoreMasks, log := restoreMasks[tid := before], log + [Touched(tid, before)];
      }
    }

    /** Lines 62-67: one write of a batch. */
    method Write(tid: int, cpus: Mask) returns (before: Mask, error: int, ghost left: Option<Mask>)
      requires Valid()
      modifies this`restoreMasks, this`log, kernel
      ensures Valid() && tid in restoreMasks && old(kernel.calls) <= kernel.calls
      ensures before == MaskOf(old(kernel.masks), tid)
      ensures log == old(log) || log == old(log) + [Touched(tid, before)]
      ensures Outside(old(kernel.masks), kernel.masks, {tid})
      ensures error == 0 ==>
        && tid in old(kernel.masks) && kernel.masks == old(kernel.masks)[tid := cpus]
        && Heard(kernel.oracle, old(kernel.calls), kernel.calls, Taken)
      ensures error == ESRCH ==>
        && kernel.masks == old(kernel.masks) - {tid}
        && (tid in old(kernel.masks) ==> Heard(kernel.oracle, old(kernel.calls), kernel.calls, Missing))
      ensures error != 0 && error != ESRCH ==>
        && kernel.masks == Leftover(old(kernel.masks), tid, left) && (left.Some? ==> tid in old(kernel.masks))
        && Rejected(kernel.oracle, old(kernel.calls), kernel.calls, cpus, left)
    {
      hide Remembers, Heard, Outside;
      ghost var m0 := kernel.masks;
      OutsideSelf(m0, {tid});
      SetOutside(m0, tid, cpus);
      before := Touch(tid);
      error, left := EINVAL, None;
      if cpus != {} {
        HeardNow(kernel.oracle, kernel.calls);
        ghost var reply := kernel.oracle(kernel.calls);
        error := kernel.Set(tid, cpus);
        if reply.Refuse? {
          left := reply.left;
          if tid in m0 {
            LeftoverOutside(m0, tid, left);
          }
        }
      }
    }

    /** Lines 76-79: puts one thread back. */
    method Undo(t: int, before: Mask, wasActed: bool, ghost todo: set<int>, ghost previous: map<int, Mask>, ghost m0: map<int, Mask>,
                ghost refused: int, ghost left: Option<Mask>)
      returns (ok: bool)
      requires Valid() && t in todo && t in previous && previous[t] == before
      modifies kernel, this`acted
      ensures Valid() && kernel.masks.Keys <= old(kernel.masks).Keys && kernel.calls == old(kernel.calls) + 1
      ensures Outside(old(kernel.masks), kernel.masks, {t}) && acted <= old(acted)
      ensures kernel.masks.Keys != old(kernel.masks).Keys ==> Heard(kernel.oracle, old(kernel.calls), kernel.calls, Missing)
      ensures if ok then acted == (if wasActed then old(acted) else old(acted) - {t})
              else acted == old(acted) && Heard(kernel.oracle, old(kernel.calls), kernel.calls, Refused)
      ensures ok && Rollable(m0, old(kernel.masks), previous, todo, refused, left) ==>
        Rollable(m0, kernel.masks, previous, todo - {t}, refused, left)
    {
      hide Remembers, Rollable, Heard;
      ghost var m1 := kernel.masks;
      HeardNow(kernel.oracle, kernel.calls);
      var error := kernel.Set(t, before);
      ok := error == 0 || error == ESRCH;
      if ok {
        if Rollable(m0, m1, previous, todo, refused, left) {
          RollableStep(m0, m1, kernel.masks, previous, todo, t, refused, left);
        }
        if !wasActed {
          acted := acted - {t};
        }
      }
    }

    /** Lines 74-80: puts the completed threads back, last one first. */
    method Rollback(completed: seq<int>, previous: map<int, Mask>, wasActed: set<int>,
                    ghost m0: map<int, Mask>, ghost done: set<int>, ghost refused: int, ghost left: Option<Mask>)
      returns (rolledBack: nat, ok: bool)
      requires Valid() && ListOf(completed, done) && acted == wasActed + done
      requires Rollable(m0, kernel.masks, previous, done, refused, left)
      modifies kernel, this`acted
      ensures Valid() && rolledBack <= |completed| && old(kernel.calls) <= kernel.calls
      ensures ok <==> rolledBack == |completed|
      ensures Outside(old(kernel.masks), kernel.masks, done) && acted <= old(acted)
      ensures ok ==> acted == wasActed && AsBefore(m0, kernel.masks, refused, left)
      ensures !ok ==> Heard(kernel.oracle, old(kernel.calls), kernel.calls, Refused)
      ensures kernel.masks.Keys <= m0.Keys
      ensures kernel.masks.Keys != old(kernel.masks).Keys ==> Heard(kernel.oracle, old(kernel.calls), kernel.calls, Missing)
    {
      hide *;
      ListOfMembers(completed, done);
      RollableKnows(m0, kernel.masks, previous, done, refused, left);
      assert completed[..|completed|] == completed;
      ghost var todo, from, keys0, start, acted0 := done, kernel.calls, kernel.masks.Keys, kernel.masks, acted;
      OutsideSelf(start, done);
      rolledBack, ok := 0, true;
      var i := |completed|;
      while i > 0
        invariant 0 <= i <= |completed| && rolledBack <= |completed| - i && from <= kernel.calls
        invariant ok <==> rolledBack == |completed| - i
        invariant Valid() && todo <= done && ListOf(completed[..i], todo)
        invariant ok ==> wasActed <= acted <= wasActed + todo
        invariant !ok ==> Heard(kernel.oracle, from, kernel.calls, Refused)
        invariant kernel.masks.Keys != keys0 ==> Heard(kernel.oracle, from, kernel.calls, Missing)
        invariant kernel.masks.Keys <= m0.Keys
        invariant Outside(start, kernel.masks, done) && acted <= acted0
        invariant ok ==> Rollable(m0, kernel.masks, previous, todo, refused, left)
      {
        i := i - 1;
        var t := completed[i];
        ListOfLess(completed[..i + 1], todo);
        assert completed[..i + 1][..i] == completed[..i];
        ghost var c1, m1 := kernel.calls, kernel.masks;
        var undone := Undo(t, previous[t], t in wasActed, todo, previous, m0, refused, left);
        OutsideTrans(start, m1, kernel.masks, done, {t}, done);
        HeardGrows(kernel.oracle, from, c1, kernel.calls);
        if undone {
          rolledBack := rolledBack + 1;
        } else {
          ok := false;
        }
        todo := todo - {t};
      }
      ListOfMembers(completed[..0], todo);
      assert todo == {};
      if ok {
        RollableDone(m0, kernel.masks, previous, refused, left);
      }
    }

    /** Line 84. */
    method Mark(t: int)
      requires Valid() && t in restoreMasks
      modifies this`acted
      ensures Valid() && acted == old(acted) + {t}
    {
      acted := acted + {t};
    }

    /** Lines 57-85 without the rollback: one thread of the batch. */
    method WriteNext(t: int, wanted: map<int, Mask>, live: set<int>, completed0: seq<int>, previous0: map<int, Mask>,
                     vanished0: set<int>, ghost m0: map<int, Mask>, ghost todo: set<int>, ghost done0: set<int>, ghost log0: seq<Note>)
      returns (completed: seq<int>, previous: map<int, Mask>, vanished: set<int>, error: int, ghost done: set<int>, ghost left: Option<Mask>)
      requires Valid() && ListOf(completed0, done0) && t in todo && done0 <= acted && Seen(log0, log, m0)
      requires Progress(m0, kernel.masks, wanted, live, previous0, todo, done0, vanished0)
      modifies this, kernel
      ensures Valid() && acted == old(acted) + done && done0 <= done <= done0 + {t} && ListOf(completed, done) && Seen(log0, log, m0)
      ensures old(kernel.calls) <= kernel.calls && Outside(old(kernel.masks), kernel.masks, {t})
      ensures error == 0 ==> Progress(m0, kernel.masks, wanted, live, previous, todo - {t}, done, vanished)
      ensures error == 0 ==> done == done0 || Heard(kernel.oracle, old(kernel.calls), kernel.calls, Taken)
      ensures kernel.masks.Keys != old(kernel.masks).Keys ==> Heard(kernel.oracle, old(kernel.calls), kernel.calls, Missing)
      ensures error != 0 ==>
        && t in live && t in wanted && done == done0
        && Rollable(m0, kernel.masks, previous, done, t, left)
        && Rejected(kernel.oracle, old(kernel.calls), kernel.calls, wanted[t], left)
    {
      hide *;
      ghost var m1 := kernel.masks;
      completed, previous, vanished, error, done, left := completed0, previous0, vanished0, 0, done0, None;
      ProgressTodo(m0, m1, wanted, live, previous, todo, done, vanished);
      OutsideSelf(m1, {t});
      if t !in live {
        ProgressVanished(m0, m1, m1, wanted, live, previous0, previous, todo, done, vanished, t);
        vanished := vanished + {t};
        return;
      }
      completed, previous, vanished, error, done, left :=
        WriteLive(t, wanted, live, completed, previous, vanished, m0, todo, done, log0);
    }

    /** Lines 62-85 for a thread that is alive. */
    method WriteLive(t: int, wanted: map<int, Mask>, ghost live: set<int>, completed0: seq<int>, previous0: map<int, Mask>,
                     vanished0: set<int>, ghost m0: map<int, Mask>, ghost todo: set<int>, ghost done0: set<int>, ghost log0: seq<Note>)
      returns (completed: seq<int>, previous: map<int, Mask>, vanished: set<int>, error: int, ghost done: set<int>, ghost left: Option<Mask>)
      requires Valid() && ListOf(completed0, done0) && t in todo && t in wanted && t !in done0 && done0 <= acted && Seen(log0, log, m0)
      requires MaskOf(kernel.masks, t) == MaskOf(m0, t)
      requires Progress(m0, kernel.masks, wanted, live, previous0, todo, done0, vanished0)
      modifies this, kernel
      ensures Valid() && acted == old(acted) + done && done0 <= done <= done0 + {t} && ListOf(completed, done) && Seen(log0, log, m0)
      ensures old(kernel.calls) <= kernel.calls && Outside(old(kernel.masks), kernel.masks, {t})
      ensures error == 0 ==> Progress(m0, kernel.masks, wanted, live, previous, todo - {t}, done, vanished)
      ensures error == 0 ==> done == done0 || Heard(kernel.oracle, old(kernel.calls), kernel.calls, Taken)
      ensures kernel.masks.Keys != old(kernel.masks).Keys ==> Heard(kernel.oracle, old(kernel.calls), kernel.calls, Missing)
      ensures error != 0 ==>
        && done == done0 && Rollable(m0, kernel.masks, previous, done, t, left)
        && Rejected(kernel.oracle, old(kernel.calls), kernel.calls, wanted[t], left)
    {
      hide *;
      ghost var m1 := kernel.masks;
      MarkedMore(acted, done0, t);
      completed, vanished, done := completed0, vanished0, done0;
      var before;
      before, error, left := Write(t, wanted[t]);
      SeenMore(log0, old(log), m0, t);
      previous := previous0[t := before];
      ExtendsOne(previous0, t, before);
      if error == ESRCH {
        ProgressVanished(m0, m1, kernel.masks, wanted, live, previous0, previous, todo, done, vanished, t);
        vanished, error := vanished + {t}, 0;
      } else if error != 0 {
        LeftoverKeys(m1, t, left);
        ProgressFails(m0, m1, kernel.masks, wanted, live, previous0, previous, todo, done, vanished, t, left);
      } else {
        ProgressWritten(m0, m1, wanted, live, previous0, todo, done, vanished, t, before);
        ListOfMore(completed, done, t);
        completed, done := completed + [t], done + {t};
        Mark(t);
      }
    }

    /** Lines 56-86 without the rollback: writes thread by thread, in thread order, up to the
    first refusal. */
    method WriteAll(wanted: map<int, Mask>, live: set<int>)
      returns (completed: seq<int>, previous: map<int, Mask>, vanished: set<int>, error: int,
               ghost done: set<int>, ghost refused: int, ghost left: Option<Mask>)
      requires Valid()
      modifies this, kernel
      ensures Valid() && acted == old(acted) + done && ListOf(completed, done) && Seen(old(log), log, old(kernel.masks))
      ensures old(kernel.calls) <= kernel.calls && Outside(old(kernel.masks), kernel.masks, wanted.Keys) && done <= wanted.Keys
      ensures error == 0 ==> Progress(old(kernel.masks), kernel.masks, wanted, live, previous, {}, done, vanished)
      ensures done != {} ==> Heard(kernel.oracle, old(kernel.calls), kernel.calls, Taken)
      ensures kernel.masks.Keys != old(kernel.masks).Keys ==> Heard(kernel.oracle, old(kernel.calls), kernel.calls, Missing)
      ensures error != 0 ==>
        && refused in wanted && refused in live
        && Rollable(old(kernel.masks), kernel.masks, previous, done, refused, left)
        && Rejected(kernel.oracle, old(kernel.calls), kernel.calls, wanted[refused], left)
    {
      hide *;
      ghost var m0, from := kernel.masks, kernel.calls;
      completed, previous, vanished, error, done, refused, left := [], map[], {}, 0, {}, 0, None;
      var todo := wanted.Keys;
      ProgressBegins(m0, wanted, live);
      ListOfNone();
      SeenNothing(log, m0);
      OutsideSelf(m0, wanted.Keys);
      while todo != {}
        invariant Valid() && acted == old(acted) + done && ListOf(completed, done) && Seen(old(log), log, m0) && from <= kernel.calls
        invariant Progress(m0, kernel.masks, wanted, live, previous, todo, done, vanished)
        invariant Outside(m0, kernel.masks, wanted.Keys) && done <= wanted.Keys
        invariant done != {} ==> Heard(kernel.oracle, from, kernel.calls, Taken)
        invariant kernel.masks.Keys != m0.Keys ==> Heard(kernel.oracle, from, kernel.calls, Missing)
        decreases todo
      {
        Inhabited(todo);
        var t := Least(todo);
        ProgressTodo(m0, kernel.masks, wanted, live, previous, todo, done, vanished);
        ghost var c1, m1 := kernel.calls, kernel.masks;
        completed, previous, vanished, error, done, left :=
          WriteNext(t, wanted, live, completed, previous, vanished, m0, todo, done, old(log));
        HeardGrows(kernel.oracle, from, c1, kernel.calls);
        OutsideTrans(m0, m1, kernel.masks, wanted.Keys, {t}, wanted.Keys);
        if error != 0 {
          RejectedIn(kernel.oracle, c1, kernel.calls, wanted[t], left, from, kernel.calls);
          refused := t;
          return;
        }
        todo := todo - {t};
      }
    }

    /** `apply_delta` (lines 46-91).  The first refusal undoes what the batch has written.  A batch
    fails only because a mask is empty or because the kernel refuses one of the calls. */
    method Apply(wanted: map<int, Mask>, live: set<int>) returns (r: ApplyResult, ghost refused: int, ghost left: Option<Mask>)
      requires Valid()
      modifies this, kernel
      ensures Valid() && r.requested == |wanted| && Seen(old(log), log, old(kernel.masks)) && old(kernel.calls) <= kernel.calls
      ensures r.success ==> r.committed + r.vanished == wanted.Keys && r.committed !! r.vanished && r.applied == |r.committed|
      ensures r.success ==> acted == old(acted) + r.committed
      ensures r.success ==> Written(old(kernel.masks), kernel.masks, wanted, r.committed)
      ensures r.success ==> forall t :: t in r.vanished ==> t !in live || t !in kernel.masks
      ensures !r.success ==> r.error != 0 && r.rolledBack <= r.applied && (r.rollbackSuccess <==> r.rolledBack == r.applied)
      ensures !r.success ==>
        && refused in wanted && refused in live
        && Rejected(kernel.oracle, old(kernel.calls), kernel.calls, wanted[refused], left)
      ensures !r.success && r.rollbackSuccess ==> acted == old(acted) && AsBefore(old(kernel.masks), kernel.masks, refused, left)
      ensures !r.success && !r.rollbackSuccess ==> Heard(kernel.oracle, old(kernel.calls), kernel.calls, Refused)
      ensures r.applied > 0 ==> Heard(kernel.oracle, old(kernel.calls), kernel.calls, Taken)
      ensures Outside(old(kernel.masks), kernel.masks, wanted.Keys) && acted <= old(acted) + wanted.Keys
      ensures kernel.masks.Keys <= old(kernel.masks).Keys
      ensures kernel.masks.Keys != old(kernel.masks).Keys ==> Heard(kernel.oracle, old(kernel.calls), kernel.calls, Missing)
    {
      hide *;
      ghost var m0, from := kernel.masks, kernel.calls;
      var wasActed := acted;
      var completed, previous, vanished, error;
      ghost var done;
      completed, previous, vanished, error, done, refused, left := WriteAll(wanted, live);
      ListOfMembers(completed, done);
      if error != 0 {
        ghost var m1 := kernel.masks;
        r := Undone(|wanted|, completed, previous, vanished, wasActed, error, m0, from, done, refused, left, wanted[refused]);
        OutsideTrans(m0, m1, kernel.masks, wanted.Keys, done, wanted.Keys);
      } else {
        ProgressEnds(m0, kernel.masks, wanted, live, previous, done, vanished);
        var committed := set t | t in completed;
        ListOfSet(completed, done);
        r := ApplyResult(true, |wanted|, |completed|, 0, true, 0, committed, vanished);
      }
    }

    /** Lines 72-82: after a refusal. */
    method Undone(requested: nat, completed: seq<int>, previous: map<int, Mask>, vanished: set<int>, wasActed: set<int>, error: int,
                  ghost m0: map<int, Mask>, ghost from: nat, ghost done: set<int>, ghost refused: int, ghost left: Option<Mask>, ghost cpus: Mask)
      returns (r: ApplyResult)
      requires Valid() && ListOf(completed, done) && acted == wasActed + done && from <= kernel.calls && error != 0
      requires Rollable(m0, kernel.masks, previous, done, refused, left)
      requires Rejected(kernel.oracle, from, kernel.calls, cpus, left)
      requires completed != [] ==> Heard(kernel.oracle, from, kernel.calls, Taken)
      requires kernel.masks.Keys != m0.Keys ==> Heard(kernel.oracle, from, kernel.calls, Missing)
      modifies kernel, this`acted
      ensures Valid() && old(kernel.calls) <= kernel.calls && r.requested == requested && !r.success && r.error == error
      ensures r.applied == |completed| && r.rolledBack <= r.applied && (r.rollbackSuccess <==> r.rolledBack == r.applied)
      ensures Rejected(kernel.oracle, from, kernel.calls, cpus, left)
      ensures Outside(old(kernel.masks), kernel.masks, done) && acted <= old(acted)
      ensures r.rollbackSuccess ==> acted == wasActed && AsBefore(m0, kernel.masks, refused, left)
      ensures !r.rollbackSuccess ==> Heard(kernel.oracle, from, kernel.calls, Refused)
      ensures r.applied > 0 ==> Heard(kernel.oracle, from, kernel.calls, Taken)
      ensures kernel.masks.Keys <= m0.Keys
      ensures kernel.masks.Keys != m0.Keys ==> Heard(kernel.oracle, from, kernel.calls, Missing)
    {
      hide *;
      ghost var c1 := kernel.calls;
      var rolledBack, ok := Rollback(completed, previous, wasActed, m0, done, refused, left);
      RejectedIn(kernel.oracle, from, c1, cpus, left, from, kernel.calls);
      HeardGrows(kernel.oracle, from, c1, kernel.calls);
      r := ApplyResult(false, requested, |completed|, rolledBack, ok, error, {}, vanished);
    }

    /** Lines 140-150: writes one restore mask. */
    method GiveBack(t: int, ghost m0: map<int, Mask>, ghost restore0: map<int, Mask>, ghost released: set<int>, ghost refused: set<int>)
      returns (error: int)
      requires t in restoreMasks && t in restore0 && restoreMasks[t] == restore0[t] && t !in released
      requires Returned(m0, kernel.masks, restore0, released, refused)
      modifies kernel
      ensures kernel.calls == old(kernel.calls) + 1
      ensures
        if error == 0 || error == ESRCH
        then Returned(m0, kernel.masks, restore0, released + {t}, refused)
        else Returned(m0, kernel.masks, restore0, released, refused + {t}) && Heard(kernel.oracle, old(kernel.calls), kernel.calls, Refused)
      ensures error == 0 ==> Heard(kernel.oracle, old(kernel.calls), kernel.calls, Taken)
      ensures kernel.masks.Keys != old(kernel.masks).Keys ==> Heard(kernel.oracle, old(kernel.calls), kernel.calls, Missing)
    {
      hide Heard;
      HeardNow(kernel.oracle, kernel.calls);
      error := kernel.Set(t, restoreMasks[t]);
    }

    /** Lines 142-143. */
    method Forget(t: int)
      requires Valid()
      modifies this
      ensures Valid() && acted == old(acted) - {t} && restoreMasks == old(restoreMasks) - {t} && log == old(log) + [Forgotten(t)]
    {
      hide Remembers;
      RememberForgotten(log, restoreMasks, t);
      acted, restoreMasks, log := acted - {t}, restoreMasks - {t}, log + [Forgotten(t)];
    }

    lemma Knows()
      requires Valid()
      ensures acted <= restoreMasks.Keys
      ensures forall t :: t in restoreMasks ==> Origin(log, t) == Some(restoreMasks[t])
    {
    }

    /** Lines 137-150 for one thread. */
    method RestoreOne(t: int, ghost m0: map<int, Mask>, ghost restore0: map<int, Mask>, ghost acted0: set<int>, ghost log0: seq<Note>,
                      ghost released0: set<int>, ghost refused0: set<int>)
      returns (error: int, ghost released: set<int>, ghost refused: set<int>)
      requires Valid() && t in acted && t !in released0 && t !in refused0
      requires acted == acted0 - released0 && restoreMasks == restore0 - released0
      requires Returned(m0, kernel.masks, restore0, released0, refused0) && Forgets(log0, log, released0)
      modifies this, kernel
      ensures Valid() && acted == acted0 - released && restoreMasks == restore0 - released && kernel.calls == old(kernel.calls) + 1
      ensures Returned(m0, kernel.masks, restore0, released, refused) && Forgets(log0, log, released)
      ensures if error == 0 || error == ESRCH then released == released0 + {t} && refused == refused0
              else released == released0 && refused == refused0 + {t}
      ensures error != 0 && error != ESRCH ==> Heard(kernel.oracle, old(kernel.calls), kernel.calls, Refused)
      ensures error == 0 ==> Heard(kernel.oracle, old(kernel.calls), kernel.calls, Taken)
      ensures kernel.masks.Keys != old(kernel.masks).Keys ==> Heard(kernel.oracle, old(kernel.calls), kernel.calls, Missing)
    {
      hide *;
      Knows();
      error := GiveBack(t, m0, restore0, released0, refused0);
      released, refused := released0, refused0;
      if error == 0 || error == ESRCH {
        ForgetsMore(log0, log, released0, t);
        Forget(t);
        released := released0 + {t};
      } else {
        refused := refused0 + {t};
      }
    }

    /** `restore` (lines 132-153).  Only threads the policy has written are written again; the
    ones that got their mask back, or are gone, are forgotten.  A thread fails only because the
    kernel refuses the call. */
    method Restore(tids: set<int>) returns (r: RestoreResult, ghost released: set<int>)
      requires Valid()
      modifies this, kernel
      ensures Valid() && released <= tids * old(acted) && kernel.calls == old(kernel.calls) + |tids * old(acted)|
      ensures acted == old(acted) - released && restoreMasks == old(restoreMasks) - released
      ensures r.requested == |tids * old(acted)| == r.restored + r.vanished + r.failed
      ensures r.restored + r.vanished == |released| && (r.failed == 0 <==> released == tids * old(acted))
      ensures Returned(old(kernel.masks), kernel.masks, old(restoreMasks), released, tids * old(acted) - released)
      ensures forall t :: t in released && t in kernel.masks ==> Origin(old(log), t) == Some(kernel.masks[t])
      ensures Forgets(old(log), log, released)
      ensures r.failed > 0 ==> Heard(kernel.oracle, old(kernel.calls), kernel.calls, Refused)
      ensures r.restored > 0 ==> Heard(kernel.oracle, old(kernel.calls), kernel.calls, Taken)
      ensures kernel.masks.Keys != old(kernel.masks).Keys ==> Heard(kernel.oracle, old(kernel.calls), kernel.calls, Missing)
    {
      hide *;
      ghost var m0, restore0, log0, acted0, from := kernel.masks, restoreMasks, log, acted, kernel.calls;
      Knows();
      var restored, vanished, failed;
      ghost var refused;
      restored, vanished, failed, released, refused := RestoreEach(tids);
      VisitedEnds(tids, acted0, released, refused);
      ReturnedMeans(m0, kernel.masks, restore0, released, refused);
      TallyMeans(kernel.oracle, from, kernel.calls, m0, kernel.masks, restored, vanished, failed, released, refused);
      r := RestoreResult(restored + vanished + failed, restored, vanished, failed);
    }

    /** Lines 136-150: thread by thread. */
    method RestoreEach(tids: set<int>)
      returns (restored: nat, vanished: nat, failed: nat, ghost released: set<int>, ghost refused: set<int>)
      requires Valid()
      modifies this, kernel
      ensures Valid() && Visited(tids, {}, old(acted), released, refused)
      ensures acted == old(acted) - released && restoreMasks == old(restoreMasks) - released
      ensures Returned(old(kernel.masks), kernel.masks, old(restoreMasks), released, refused) && Forgets(old(log), log, released)
      ensures Tally(kernel.oracle, old(kernel.calls), kernel.calls, old(kernel.masks), kernel.masks, restored, vanished, failed, released, refused)
    {
      hide *;
      ghost var m0, restore0, log0, acted0, from := kernel.masks, restoreMasks, log, acted, kernel.calls;
      restored, vanished, failed, released, refused := 0, 0, 0, {}, {};
      var todo := tids;
      ReturnedNothing(m0, restore0);
      ForgetsNothing(log);
      VisitedNothing(tids, acted);
      TallyNothing(kernel.oracle, from, m0);
      while todo != {}
        invariant Valid() && Visited(tids, todo, acted0, released, refused)
        invariant acted == acted0 - released && restoreMasks == restore0 - released
        invariant Returned(m0, kernel.masks, restore0, released, refused) && Forgets(log0, log, released)
        invariant Tally(kernel.oracle, from, kernel.calls, m0, kernel.masks, restored, vanished, failed, released, refused)
        decreases todo
      {
        Inhabited(todo);
        var t := Least(todo);
        VisitedMore(tids, todo, acted0, released, refused, t);
        todo := todo - {t};
        if t in acted {
          ghost var c1, m1, released0, refused0 := kernel.calls, kernel.masks, released, refused;
          var error;
          error, released, refused := RestoreOne(t, m0, restore0, acted0, log0, released, refused);
          TallyMore(kernel.oracle, from, c1, kernel.calls, m0, m1, kernel.masks, restored, vanished, failed,
                    released0, refused0, released, refused, t, error);
          restored, vanished, failed := Counted(restored, vanished, failed, error);
        }
      }
    }

    /** Lines 141-149: what one answer counts as. */
    method Counted(restored0: nat, vanished0: nat, failed0: nat, error: int) returns (restored: nat, vanished: nat, failed: nat)
      ensures restored == restored0 + (if error == 0 then 1 else 0) && vanished == vanished0 + (if error == ESRCH then 1 else 0)
      ensures failed == failed0 + (if error == 0 || error == ESRCH then 0 else 1)
    {
      restored, vanished, failed := restored0, vanished0, failed0;
      if error == 0 {
        restored := restored + 1;
      } else if error == ESRCH {
        vanished := vanished + 1;
      } else {
        failed := failed + 1;
      }
    }

    /** `restore_all` (lines 115-130): every thread the policy has written; everything is
    forgotten, also what could not be restored. */
    method RestoreAll() returns (r: RestoreResult, ghost released: set<int>)
      requires Valid()
      modifies this, kernel
      ensures Valid() && released <= old(acted) && acted == {} && restoreMasks == map[] && log == old(log) + [AllForgotten]
      ensures r.requested == |old(acted)| == r.restored + r.vanished + r.failed && kernel.calls == old(kernel.calls) + |old(acted)|
      ensures r.restored + r.vanished == |released| && (r.failed == 0 <==> released == old(acted))
      ensures Returned(old(kernel.masks), kernel.masks, old(restoreMasks), released, old(acted) - released)
      ensures forall t :: t in released && t in kernel.masks ==> Origin(old(log), t) == Some(kernel.masks[t])
      ensures r.failed > 0 ==> Heard(kernel.oracle, old(kernel.calls), kernel.calls, Refused)
      ensures r.restored > 0 ==> Heard(kernel.oracle, old(kernel.calls), kernel.calls, Taken)
      ensures kernel.masks.Keys != old(kernel.masks).Keys ==> Heard(kernel.oracle, old(kernel.calls), kernel.calls, Missing)
    {
      hide *;
      ghost var m0, restore0, from := kernel.masks, restoreMasks, kernel.calls;
      ghost var refused: set<int> := {};
      Knows();
      var requested, restored: nat, vanished: nat, failed: nat := |acted|, 0, 0, 0;
      released := {};
      var todo := acted;
      ReturnedNothing(m0, restore0);
      VisitedNothing(acted, acted);
      TallyNothing(kernel.oracle, from, m0);
      while todo != {}
        invariant acted == old(acted) && restoreMasks == restore0 && log == old(log)
        invariant todo <= acted && Visited(acted, todo, acted, released, refused)
        invariant Returned(m0, kernel.masks, restore0, released, refused)
        invariant Tally(kernel.oracle, from, kernel.calls, m0, kernel.masks, restored, vanished, failed, released, refused)
        decreases todo
      {
        Inhabited(todo);
        var t := Least(todo);
        VisitedMore(acted, todo, acted, released, refused, t);
        todo := todo - {t};
        ghost var c1, m1, released0, refused0 := kernel.calls, kernel.masks, released, refused;
        var error := GiveBack(t, m0, restore0, released, refused);
        if error == 0 || error == ESRCH {
          released := released + {t};
        } else {
          refused := refused + {t};
        }
        TallyMore(kernel.oracle, from, c1, kernel.calls, m0, m1, kernel.masks, restored, vanished, failed,
                  released0, refused0, released, refused, t, error);
        restored, vanished, failed := Counted(restored, vanished, failed, error);
      }
      VisitedEnds(acted, acted, released, refused);
      assert acted * acted == acted;
      ReturnedMeans(m0, kernel.masks, restore0, released, refused);
      TallyMeans(kernel.oracle, from, kernel.calls, m0, kernel.masks, restored, vanished, failed, released, refused);
      Clear();
      r := RestoreResult(requested, restored, vanished, failed);
    }

    /** Lines 127-128. */
    method Clear()
      modifies this
      ensures Valid() && acted == {} && restoreMasks == map[] && log == old(log) + [AllForgotten]
    {
      RememberNothing(log);
      acted, restoreMasks, log := {}, map[], log + [AllForgotten];
    }
  }

  // ----- a refusal that is not rolled back -----

  lemma StubbornKernel(oracle: nat -> Reply, from: nat, to: nat, cpus: Mask, left: Option<Mask>)
    requires forall n: nat :: oracle(n) == Refuse(EIO, Some({7}))
    ensures !Heard(oracle, from, to, Taken) && !Heard(oracle, from, to, Missing)
    ensures cpus != {} && Rejected(oracle, from, to, cpus, left) ==> left == Some({7})
  {
  }

  /** A thread that is alive and stays alive is either written or refused. */
  lemma OnlyRefused(r: ApplyResult, wanted: map<int, Mask>, live: set<int>, masks: map<int, Mask>, t: int)
    requires t in wanted && t in live && t in masks
    requires r.success ==> r.committed + r.vanished == wanted.Keys && r.applied == |r.committed|
    requires r.success ==> forall u :: u in r.vanished ==> u !in live || u !in masks
    ensures r.success ==> r.applied > 0
  {
    if r.success {
      assert t in r.committed + r.vanished;
      assert t in r.committed;
    }
  }

  lemma LeftBehind(before: map<int, Mask>, now: map<int, Mask>, left: Mask)
    requires before == map[1 := {0}] && now.Keys == before.Keys && AsBefore(before, now, 1, Some(left))
    ensures now == map[1 := left]
  {
    forall t
      ensures t in now <==> t in map[1 := left]
    {
      assert t in now.Keys <==> t in before.Keys;
    }
  }

  /** With a kernel that refuses every call and leaves `{7}` behind, a batch fails, its rollback
  counts as complete, and the thread keeps the mask that nobody asked for. */
  method RefusedMaskStays(actuator: Actuator) returns (r: ApplyResult)
    requires actuator.Valid() && actuator.kernel.masks == map[1 := {0}]
    requires forall n: nat :: actuator.kernel.oracle(n) == Refuse(EIO, Some({7}))
    modifies actuator, actuator.kernel
    ensures actuator.kernel.masks == map[1 := {7}] && !r.success && r.rollbackSuccess && r.rolledBack == 0
    ensures actuator.acted == old(actuator.acted)
  {
    hide Seen, Written, Heard, Rejected, AsBefore, Remembers;
    var wanted: map<int, Mask> := map[1 := {2}];
    ghost var before, from := actuator.kernel.masks, actuator.kernel.calls;
    ghost var refused, left;
    r, refused, left := actuator.Apply(wanted, {1});
    StubbornKernel(actuator.kernel.oracle, from, actuator.kernel.calls, {2}, left);
    assert 1 in actuator.kernel.masks.Keys;
    OnlyRefused(r, wanted, {1}, actuator.kernel.masks, 1);
    assert refused == 1 && r.applied == 0 && left == Some({7});
    LeftBehind(before, actuator.kernel.masks, {7});
  }
}
