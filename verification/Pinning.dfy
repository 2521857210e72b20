/** The initial pinning phase (src/solver.cpp:1067-1154): which threads still have to be
pinned, and how one budgeted batch is repaired against the placement that stays behind. */
module Pinning {
  import opened Lists
  import opened Counting
  import opened Topology
  import opened CpuPlanner

  /** The machine and thread tables that the batch repair reads. */
  datatype Deck = Deck(
    cpus: seq<int>,
    lists: map<int, seq<int>>,
    nodeOf: map<int, int>,
    slot: int,
    demand: map<int, real>)
  {
    ghost predicate Valid() {
      && Distinct(cpus) && slot >= 1
      && (forall n, c :: n in lists && c in lists[n] ==> c in nodeOf)
      && (forall n :: n in lists ==> lists[n] != [])
      && (forall c :: c in nodeOf <==> c in cpus)
      && (forall c :: c in nodeOf ==> nodeOf[c] in lists)
    }
  }

  /** The CPU and node each thread is meant to end up on. */
  datatype Targets = Targets(cpu: map<int, int>, node: map<int, int>) {
    predicate For(nodeOf: map<int, int>, tids: set<int>) {
      && tids <= cpu.Keys && cpu.Keys == node.Keys
      && (forall t :: t in cpu ==> cpu[t] in nodeOf && node[t] == nodeOf[cpu[t]])
    }
  }

  // ----- which threads are pending (lines 1071-1089) -----

  /** Not pinned yet, or off target while a global replan is under way. */
  predicate IsPending(pinned: set<int>, replan: bool, placement: map<int, int>, cpu: map<int, int>, t: int) {
    t !in pinned || (replan && (t !in placement || placement[t] != Get(cpu, t)))
  }

  function PendingSet(tids: set<int>, pinned: set<int>, replan: bool, placement: map<int, int>, cpu: map<int, int>): set<int> {
    set t | t in tids && IsPending(pinned, replan, placement, cpu, t)
  }

  function Batch(targets: map<int, int>, batch: seq<int>): map<int, int> {
    map t | t in batch && t in targets :: targets[t]
  }

  lemma BatchAt(targets: map<int, int>, batch: seq<int>, t: int)
    ensures t in Batch(targets, batch) <==> t in batch && t in targets
    ensures t in Batch(targets, batch) ==> Batch(targets, batch)[t] == targets[t]
  {
  }

  /** Pinning a batch on its targets takes exactly those threads off the pending list. */
  lemma PinningTakesOff(tids: set<int>, pinned: set<int>, replan: bool, placement: map<int, int>,
                        before: map<int, int>, after: map<int, int>, batch: seq<int>)
    requires forall t :: t in batch ==> t in PendingSet(tids, pinned, replan, placement, before)
    requires forall t :: t in batch ==> t in after
    requires forall t :: t in tids && t !in batch ==> Get(after, t) == Get(before, t)
    ensures var done := set t | t in batch;
      PendingSet(tids, pinned + done, replan, placement + Batch(after, batch), after)
        == PendingSet(tids, pinned, replan, placement, before) - done
  {
    var done := set t | t in batch;
    var old' := PendingSet(tids, pinned, replan, placement, before);
    var new' := PendingSet(tids, pinned + done, replan, placement + Batch(after, batch), after);
    forall t
      ensures t in new' <==> t in old' - done
    {
      BatchAt(after, batch, t);
      hide Batch;
    }
  }

  lemma DifferenceSize(all: set<int>, batch: seq<int>)
    requires Distinct(batch) && forall t :: t in batch ==> t in all
    ensures |all - (set t | t in batch)| == |all| - |batch|
  {
    var done := set t | t in batch;
    DistinctLength(batch, done);
    assert all == (all - done) + done;
  }

  // ----- repair of one batch (lines 1096-1139) -----

  function PinKey(d: Deck, load: map<int, real>, count: map<int, int>, tid: int, cpu: int): seq<real> {
    [ Bit(Get(count, cpu) >= d.slot),
      Max(0.0, GetReal(load, cpu) + GetReal(d.demand, tid) - 1.0),
      GetReal(load, cpu),
      Get(count, cpu) as real,
      cpu as real ]
  }

  method Available(cpus: seq<int>, count: map<int, int>, slot: int) returns (free: seq<int>)
    ensures forall c :: c in free <==> c in cpus && Get(count, c) < slot
  {
    free := [];
    for i := 0 to |cpus|
      invariant forall c :: c in free <==> c in cpus[..i] && Get(count, c) < slot
    {
      assert cpus[..i + 1] == cpus[..i] + [cpus[i]];
      if Get(count, cpus[i]) < slot {
        free := free + [cpus[i]];
      }
    }
    assert cpus[..|cpus|] == cpus;
  }

  /** Lines 1110-1136: keep the target, else a free CPU of its node, else any free CPU. */
  method PickTarget(d: Deck, load: map<int, real>, count: map<int, int>, tid: int, target: int, node: int)
    returns (pick: Option<int>)
    requires d.Valid() && target in d.nodeOf && node in d.lists
    ensures pick.Some? ==> pick.value in d.nodeOf && Get(count, pick.value) < d.slot
    ensures Get(count, target) < d.slot ==> pick == Some(target)
    ensures pick.Some? && pick.value != target && (exists c :: c in d.lists[node] && Get(count, c) < d.slot)
      ==> pick.value in d.lists[node]
    ensures pick.None? <==> forall c :: c in d.cpus ==> Get(count, c) >= d.slot
    ensures pick.Some? && pick.value != target ==>
      forall c :: c in (if exists f :: f in d.lists[node] && Get(count, f) < d.slot then d.lists[node] else d.cpus) && Get(count, c) < d.slot ==>
        !LexLess(PinKey(d, load, count, tid, c), PinKey(d, load, count, tid, pick.value))
  {
    if Get(count, target) < d.slot {
      return Some(target);
    }
    var near := Available(d.lists[node], count, d.slot);
    var candidates := d.lists[node];
    if near == [] {
      candidates := Available(d.cpus, count, d.slot);
    } else {
      assert near[0] in near;
    }
    if candidates == [] {
      return None;
    }
    var best := ArgMin(candidates, c => PinKey(d, load, count, tid, c));
    var witness' := if near == [] then candidates[0] else near[0];
    assert witness' in candidates && Get(count, witness') < d.slot;
    LexFirstFree(d, load, count, tid, witness', best);
    return Some(best);
  }

  lemma LexFirstFree(d: Deck, load: map<int, real>, count: map<int, int>, tid: int, free: int, best: int)
    requires Get(count, free) < d.slot
    requires !LexLess(PinKey(d, load, count, tid, free), PinKey(d, load, count, tid, best))
    ensures Get(count, best) < d.slot
  {
  }

  /** The placement that stays if the batch leaves its old CPUs. */
  function Staying(placement: map<int, int>, tids: set<int>, batch: seq<int>): map<int, int> {
    map t | t in placement && t in tids && t !in batch :: placement[t]
  }

  /** The placement once the first `i` threads of the batch are on their targets. */
  function Projected(placement: map<int, int>, tids: set<int>, batch: seq<int>, i: nat, cpu: map<int, int>): map<int, int>
    requires i <= |batch|
  {
    Staying(placement, tids, batch) + Batch(cpu, batch[..i])
  }

  /** No CPU is pushed over the slot cap; a CPU already over it gains nobody. */
  ghost predicate NoNewOverflow(before: map<int, int>, after: map<int, int>, slot: int) {
    forall c :: Count(after, c) <= slot || Count(after, c) <= Count(before, c)
  }

  lemma BatchStep(placement: map<int, int>, tids: set<int>, batch: seq<int>, i: nat, cpu: map<int, int>, target: int)
    requires Distinct(batch) && i < |batch|
    requires forall t :: t in batch ==> t in cpu
    ensures Projected(placement, tids, batch, i + 1, cpu[batch[i] := target])
         == Projected(placement, tids, batch, i, cpu)[batch[i] := target]
    ensures batch[i] !in Projected(placement, tids, batch, i, cpu)
  {
    var tid := batch[i];
    BatchPrefix(batch, i, cpu, target);
    assert tid !in Staying(placement, tids, batch) by {
      assert tid in batch;
    }
    MapPlusSet(Staying(placement, tids, batch), Batch(cpu, batch[..i]), tid, target);
    hide Batch, Staying;
  }

  lemma MapPlusSet(a: map<int, int>, b: map<int, int>, t: int, v: int)
    ensures a + b[t := v] == (a + b)[t := v]
  {
  }

  lemma BatchPrefix(batch: seq<int>, i: nat, cpu: map<int, int>, target: int)
    requires Distinct(batch) && i < |batch|
    requires forall t :: t in batch ==> t in cpu
    ensures Batch(cpu[batch[i] := target], batch[..i + 1]) == Batch(cpu, batch[..i])[batch[i] := target]
    ensures batch[i] !in Batch(cpu, batch[..i])
  {
    var tid := batch[i];
    assert batch[..i + 1] == batch[..i] + [tid];
    assert tid !in batch[..i];
    var a, b := Batch(cpu[tid := target], batch[..i + 1]), Batch(cpu, batch[..i])[tid := target];
    assert a.Keys == b.Keys;
  }

  lemma ProjectedSize(placement: map<int, int>, tids: set<int>, batch: seq<int>, i: nat, cpu: map<int, int>)
    requires Distinct(batch) && i < |batch|
    requires forall t :: t in batch ==> t in cpu && t in tids
    ensures |Projected(placement, tids, batch, i, cpu)| < |tids|
  {
    var p := Projected(placement, tids, batch, i, cpu);
    BatchStep(placement, tids, batch, i, cpu, 0);
    assert batch[i] in batch;
    forall t | t in p
      ensures t in tids - {batch[i]}
    {
      if t in Batch(cpu, batch[..i]) {
        assert t in batch;
      }
    }
    SubsetCard(p.Keys, tids - {batch[i]});
    CardWithout(tids, batch[i]);
    assert |p| == |p.Keys|;
  }

  /** With at least as many slots as threads, some CPU is free for the next thread of the batch. */
  lemma SlotLeft(cpus: seq<int>, slot: int, placement: map<int, int>, tids: set<int>, batch: seq<int>, i: nat, cpu: map<int, int>)
    requires Distinct(cpus) && Distinct(batch) && i < |batch|
    requires forall t :: t in batch ==> t in cpu && t in tids
    requires forall t :: t in placement ==> placement[t] in cpus
    requires forall t :: t in cpu ==> cpu[t] in cpus
    requires |tids| <= slot * |cpus|
    ensures exists c :: c in cpus && Count(Projected(placement, tids, batch, i, cpu), c) < slot
  {
    ProjectedSize(placement, tids, batch, i, cpu);
    ProjectedOnline((set c | c in cpus), placement, tids, batch, i, cpu);
    hide *;
    SomePlaceBelowConst(cpus, Projected(placement, tids, batch, i, cpu), slot);
  }

  lemma ProjectedOnline(online: set<int>, placement: map<int, int>, tids: set<int>, batch: seq<int>, i: nat, cpu: map<int, int>)
    requires i <= |batch|
    requires forall t :: t in placement ==> placement[t] in online
    requires forall t :: t in cpu ==> cpu[t] in online
    ensures var p := Projected(placement, tids, batch, i, cpu); forall t :: t in p ==> p[t] in online
  {
  }

  lemma Listed(d: Deck, c: int)
    requires d.Valid() && c in d.nodeOf
    ensures c in d.cpus
  {
  }

  lemma CountsStart()
    ensures CountsKnown(map[], map[])
  {
  }

  /** Builds the projected counts and loads of lines 1096-1108. */
  method Project(d: Deck, placement: map<int, int>, tids: set<int>, batch: seq<int>)
    returns (count: map<int, int>, load: map<int, real>)
    ensures CountsKnown(Staying(placement, tids, batch), count)
  {
    var staying := Staying(placement, tids, batch);
    var order := Ascending(staying.Keys);
    count, load := map[], map[];
    ghost var at: map<int, int> := map[];
    CountsStart();
    hide CountsKnown, Staying, Ascending;
    for i := 0 to |order|
      invariant forall t :: t in at <==> t in order[..i]
      invariant forall t :: t in at ==> t in staying && at[t] == staying[t]
      invariant CountsKnown(at, count)
    {
      var t := order[i];
      assert t in staying && t !in at;
      var c := staying[t];
      CountsKnownAfter(at, count, t, c);
      assert order[..i + 1] == order[..i] + [t];
      at := at[t := c];
      count := count[c := Get(count, c) + 1];
      load := load[c := GetReal(load, c) + GetReal(d.demand, t)];
    }
    assert order[..|order|] == order;
    forall t
      ensures t in at <==> t in staying
    {
      assert t in order <==> t in staying.Keys;
    }
    assert at == staying;
  }

  /** The target of a thread of the batch, when those before it are where they go: a target with a
  free slot is kept, and otherwise the thread stays on its node if a CPU there has one. */
  ghost predicate Careful(d: Deck, placement: map<int, int>, tids: set<int>, batch: seq<int>, j: nat, start: Targets, now: Targets)
    requires j < |batch|
  {
    var t, before := batch[j], Projected(placement, tids, batch, j, now.cpu);
    var node := Get(start.node, t);
    if Count(before, Get(start.cpu, t)) < d.slot then Get(now.cpu, t) == Get(start.cpu, t)
    else node in d.lists && (exists c :: c in d.lists[node] && Count(before, c) < d.slot) ==> Get(now.cpu, t) in d.lists[node]
  }

  /** The targets for the first `i` threads of the batch are settled, the others are as before. */
  ghost predicate Retargeted(d: Deck, tids: set<int>, batch: seq<int>, i: nat, start: Targets, now: Targets)
    requires i <= |batch|
  {
    && start.For(d.nodeOf, tids) && now.For(d.nodeOf, tids) && now.cpu.Keys == start.cpu.Keys
    && (forall t :: t in start.cpu && t !in batch[..i] ==> now.cpu[t] == start.cpu[t] && now.node[t] == start.node[t])
  }

  ghost predicate BatchPartial(d: Deck, placement: map<int, int>, tids: set<int>, batch: seq<int>, i: nat,
                               start: Targets, now: Targets, count: map<int, int>)
    requires i <= |batch|
  {
    && Retargeted(d, tids, batch, i, start, now)
    && CountsKnown(Projected(placement, tids, batch, i, now.cpu), count)
    && NoNewOverflow(Staying(placement, tids, batch), Projected(placement, tids, batch, i, now.cpu), d.slot)
    && (forall j :: 0 <= j < i ==> Careful(d, placement, tids, batch, j, start, now))
  }

  lemma BatchPartialStart(d: Deck, placement: map<int, int>, tids: set<int>, batch: seq<int>, start: Targets, count: map<int, int>)
    requires start.For(d.nodeOf, tids) && CountsKnown(Staying(placement, tids, batch), count)
    ensures BatchPartial(d, placement, tids, batch, 0, start, start, count)
  {
    hide CountsKnown, Targets.For, Staying;
    assert Batch(start.cpu, batch[..0]) == map[];
    assert Projected(placement, tids, batch, 0, start.cpu) == Staying(placement, tids, batch);
  }

  lemma RetargetStep(d: Deck, tids: set<int>, batch: seq<int>, i: nat, start: Targets, now: Targets, target: int)
    requires i < |batch| && (forall t :: t in batch ==> t in tids) && target in d.nodeOf
    requires Retargeted(d, tids, batch, i, start, now)
    ensures Retargeted(d, tids, batch, i + 1, start, Targets(now.cpu[batch[i] := target], now.node[batch[i] := d.nodeOf[target]]))
  {
    var tid := batch[i];
    assert tid in batch;
    assert batch[..i + 1] == batch[..i] + [tid];
  }

  lemma OverflowStep(before: map<int, int>, p: map<int, int>, slot: int, tid: int, target: int)
    requires NoNewOverflow(before, p, slot) && tid !in p && Count(p, target) < slot
    ensures NoNewOverflow(before, p[tid := target], slot)
  {
    hide Count;
    forall c
      ensures Count(p[tid := target], c) <= slot || Count(p[tid := target], c) <= Count(before, c)
    {
      CountSet(p, tid, target, c);
    }
  }

  /** What happens to a later thread of the batch does not matter to the projection so far. */
  lemma ProjectedAhead(placement: map<int, int>, tids: set<int>, batch: seq<int>, j: nat, i: nat, cpu: map<int, int>, target: int)
    requires Distinct(batch) && j <= i < |batch|
    ensures Projected(placement, tids, batch, j, cpu[batch[i] := target]) == Projected(placement, tids, batch, j, cpu)
  {
    assert batch[i] !in batch[..j];
    assert Batch(cpu[batch[i] := target], batch[..j]) == Batch(cpu, batch[..j]);
  }

  lemma CarefulStays(d: Deck, placement: map<int, int>, tids: set<int>, batch: seq<int>, j: nat, i: nat, start: Targets, now: Targets,
                     target: int, node: int)
    requires Distinct(batch) && j < i < |batch| && Careful(d, placement, tids, batch, j, start, now)
    ensures Careful(d, placement, tids, batch, j, start, Targets(now.cpu[batch[i] := target], now.node[batch[i] := node]))
  {
    hide Projected, Count;
    ProjectedAhead(placement, tids, batch, j, i, now.cpu, target);
  }

  /** The pick of `PickTarget` for the next thread. */
  ghost predicate Picked(d: Deck, count: map<int, int>, pick: int, target: int, node: int) {
    && pick in d.nodeOf && node in d.lists && Get(count, pick) < d.slot
    && (Get(count, target) < d.slot ==> pick == target)
    && (pick != target && (exists c :: c in d.lists[node] && Get(count, c) < d.slot) ==> pick in d.lists[node])
  }

  lemma CarefulNow(d: Deck, placement: map<int, int>, tids: set<int>, batch: seq<int>, i: nat, start: Targets, now: Targets,
                   count: map<int, int>, pick: int, node: int)
    requires Distinct(batch) && i < |batch| && CountsKnown(Projected(placement, tids, batch, i, now.cpu), count)
    requires Picked(d, count, pick, Get(start.cpu, batch[i]), Get(start.node, batch[i]))
    ensures Careful(d, placement, tids, batch, i, start, Targets(now.cpu[batch[i] := pick], now.node[batch[i] := node]))
  {
    hide Projected, Count;
    ProjectedAhead(placement, tids, batch, i, i, now.cpu, pick);
  }

  lemma NextTarget(d: Deck, tids: set<int>, batch: seq<int>, i: nat, start: Targets, now: Targets)
    requires Distinct(batch) && i < |batch| && (forall t :: t in batch ==> t in tids) && Retargeted(d, tids, batch, i, start, now)
    ensures batch[i] in now.cpu && batch[i] in now.node && now.cpu[batch[i]] in d.nodeOf && d.nodeOf[now.cpu[batch[i]]] == now.node[batch[i]]
    ensures now.cpu[batch[i]] == Get(start.cpu, batch[i]) && now.node[batch[i]] == Get(start.node, batch[i])
  {
    var tid := batch[i];
    assert tid in batch && tid !in batch[..i];
    assert tid in start.cpu.Keys;
  }

  lemma BatchPartialStep(d: Deck, placement: map<int, int>, tids: set<int>, batch: seq<int>, i: nat,
                         start: Targets, now: Targets, count: map<int, int>, target: int)
    requires d.Valid() && Distinct(batch) && i < |batch| && forall t :: t in batch ==> t in tids
    requires BatchPartial(d, placement, tids, batch, i, start, now, count)
    requires Picked(d, count, target, Get(start.cpu, batch[i]), Get(start.node, batch[i]))
    ensures var tid := batch[i];
      BatchPartial(d, placement, tids, batch, i + 1, start,
                   Targets(now.cpu[tid := target], now.node[tid := d.nodeOf[target]]), count[target := Get(count, target) + 1])
  {
    var tid, p := batch[i], Projected(placement, tids, batch, i, now.cpu);
    var next := Targets(now.cpu[tid := target], now.node[tid := d.nodeOf[target]]);
    BatchHas(d, tids, batch, i, start, now);
    CountsKnownAt(p, count, target);
    hide Retargeted, CountsKnown, NoNewOverflow, Careful, Projected, Staying, Count, Deck.Valid, Distinct;
    RetargetStep(d, tids, batch, i, start, now, target);
    BatchStep(placement, tids, batch, i, now.cpu, target);
    CountsKnownAfter(p, count, tid, target);
    OverflowStep(Staying(placement, tids, batch), p, d.slot, tid, target);
    CarefulNow(d, placement, tids, batch, i, start, now, count, target, d.nodeOf[target]);
    forall j | 0 <= j < i
      ensures Careful(d, placement, tids, batch, j, start, next)
    {
      CarefulStays(d, placement, tids, batch, j, i, start, now, target, d.nodeOf[target]);
    }
  }

  lemma CountsKnownAt(at: map<int, int>, count: map<int, int>, c: int)
    requires CountsKnown(at, count)
    ensures Get(count, c) == Count(at, c)
  {
  }

  lemma BatchHas(d: Deck, tids: set<int>, batch: seq<int>, i: nat, start: Targets, now: Targets)
    requires i <= |batch| && Retargeted(d, tids, batch, i, start, now) && forall t :: t in batch ==> t in tids
    ensures forall t :: t in batch ==> t in now.cpu
  {
  }

  /** Repairs the targets of one batch so that no CPU goes over the cap.  It fails only
  when every CPU is full, which `SlotLeft` excludes whenever the slots suffice. */
  method RepairBatch(d: Deck, placement: map<int, int>, tids: set<int>, batch: seq<int>, start: Targets)
    returns (ok: bool, targets: Targets)
    requires d.Valid() && Distinct(batch) && forall t :: t in batch ==> t in tids
    requires start.For(d.nodeOf, tids)
    requires forall t :: t in placement ==> placement[t] in d.nodeOf
    ensures targets.For(d.nodeOf, tids) && targets.cpu.Keys == start.cpu.Keys
    ensures forall t :: t in start.cpu && t !in batch ==> targets.cpu[t] == start.cpu[t] && targets.node[t] == start.node[t]
    ensures ok ==> NoNewOverflow(Staying(placement, tids, batch), Projected(placement, tids, batch, |batch|, targets.cpu), d.slot)
    ensures ok ==> forall j :: 0 <= j < |batch| ==> Careful(d, placement, tids, batch, j, start, targets)
    ensures |tids| <= d.slot * |d.cpus| ==> ok
  {
    var count, load := Project(d, placement, tids, batch);
    targets := start;
    BatchPartialStart(d, placement, tids, batch, start, count);
    for i := 0 to |batch|
      invariant BatchPartial(d, placement, tids, batch, i, start, targets, count)
    {
      hide *;
      var tid := batch[i];
      BatchNext(d, placement, tids, batch, i, start, targets, count);
      var pick := PickTarget(d, load, count, tid, targets.cpu[tid], targets.node[tid]);
      if pick.None? {
        AllFull(d, placement, tids, batch, i, start, targets, count);
        BatchTargets(d, placement, tids, batch, i, start, targets, count);
        return false, targets;
      }
      var target := pick.value;
      PickedIs(d, count, target, targets.cpu[tid], targets.node[tid]);
      BatchPartialStep(d, placement, tids, batch, i, start, targets, count, target);
      targets := Targets(targets.cpu[tid := target], targets.node[tid := d.nodeOf[target]]);
      count := count[target := Get(count, target) + 1];
      load := load[target := GetReal(load, target) + GetReal(d.demand, tid)];
    }
    BatchEnds(d, placement, tids, batch, start, targets, count);
    ok := true;
  }

  lemma PickedIs(d: Deck, count: map<int, int>, pick: int, target: int, node: int)
    requires pick in d.nodeOf && node in d.lists && Get(count, pick) < d.slot
    requires Get(count, target) < d.slot ==> pick == target
    requires pick != target && (exists c :: c in d.lists[node] && Get(count, c) < d.slot) ==> pick in d.lists[node]
    ensures Picked(d, count, pick, target, node)
  {
    hide Get;
  }

  /** The next thread of the batch still has the target it came with. */
  lemma BatchNext(d: Deck, placement: map<int, int>, tids: set<int>, batch: seq<int>, i: nat, start: Targets, now: Targets, count: map<int, int>)
    requires d.Valid() && Distinct(batch) && i < |batch| && (forall t :: t in batch ==> t in tids)
    requires BatchPartial(d, placement, tids, batch, i, start, now, count)
    ensures batch[i] in now.cpu && batch[i] in now.node && now.cpu[batch[i]] in d.nodeOf && now.node[batch[i]] in d.lists
    ensures now.cpu[batch[i]] == Get(start.cpu, batch[i]) && now.node[batch[i]] == Get(start.node, batch[i])
  {
    hide Retargeted, CountsKnown, NoNewOverflow, Careful, Projected, Staying;
    NextTarget(d, tids, batch, i, start, now);
  }

  /** Every CPU is full only if there are more threads than slots. */
  lemma AllFull(d: Deck, placement: map<int, int>, tids: set<int>, batch: seq<int>, i: nat, start: Targets, now: Targets, count: map<int, int>)
    requires d.Valid() && Distinct(batch) && i < |batch| && (forall t :: t in batch ==> t in tids)
    requires forall t :: t in placement ==> placement[t] in d.nodeOf
    requires BatchPartial(d, placement, tids, batch, i, start, now, count)
    requires forall c :: c in d.cpus ==> Get(count, c) >= d.slot
    ensures |tids| > d.slot * |d.cpus|
  {
    BatchTargets(d, placement, tids, batch, i, start, now, count);
    BatchHas(d, tids, batch, i, start, now);
    hide Retargeted, NoNewOverflow, Careful, Projected, Staying, Count;
    forall t | t in placement
      ensures placement[t] in d.cpus
    {
      Listed(d, placement[t]);
    }
    forall t | t in now.cpu
      ensures now.cpu[t] in d.cpus
    {
      Listed(d, now.cpu[t]);
    }
    if |tids| <= d.slot * |d.cpus| {
      SlotLeft(d.cpus, d.slot, placement, tids, batch, i, now.cpu);
    }
  }

  lemma BatchTargets(d: Deck, placement: map<int, int>, tids: set<int>, batch: seq<int>, i: nat, start: Targets, now: Targets, count: map<int, int>)
    requires i <= |batch| && BatchPartial(d, placement, tids, batch, i, start, now, count)
    ensures now.For(d.nodeOf, tids) && now.cpu.Keys == start.cpu.Keys
    ensures forall t :: t in start.cpu && t !in batch ==> now.cpu[t] == start.cpu[t] && now.node[t] == start.node[t]
    ensures forall t :: t in now.cpu ==> now.cpu[t] in d.nodeOf
  {
    hide Retargeted, CountsKnown, NoNewOverflow, Careful, Projected, Staying;
    RetargetedMeans(d, tids, batch, i, start, now);
  }

  lemma BatchEnds(d: Deck, placement: map<int, int>, tids: set<int>, batch: seq<int>, start: Targets, now: Targets, count: map<int, int>)
    requires BatchPartial(d, placement, tids, batch, |batch|, start, now, count)
    ensures now.For(d.nodeOf, tids) && now.cpu.Keys == start.cpu.Keys
    ensures forall t :: t in start.cpu && t !in batch ==> now.cpu[t] == start.cpu[t] && now.node[t] == start.node[t]
    ensures NoNewOverflow(Staying(placement, tids, batch), Projected(placement, tids, batch, |batch|, now.cpu), d.slot)
    ensures forall j :: 0 <= j < |batch| ==> Careful(d, placement, tids, batch, j, start, now)
  {
    BatchTargets(d, placement, tids, batch, |batch|, start, now, count);
    hide Retargeted, CountsKnown, NoNewOverflow, Careful, Projected, Staying, Targets.For;
  }

  lemma RetargetedMeans(d: Deck, tids: set<int>, batch: seq<int>, i: nat, start: Targets, now: Targets)
    requires i <= |batch| && Retargeted(d, tids, batch, i, start, now)
    ensures now.For(d.nodeOf, tids) && now.cpu.Keys == start.cpu.Keys
    ensures forall t :: t in start.cpu && t !in batch ==> now.cpu[t] == start.cpu[t] && now.node[t] == start.node[t]
    ensures forall t :: t in now.cpu ==> now.cpu[t] in d.nodeOf
  {
    forall t | t in start.cpu && t !in batch
      ensures now.cpu[t] == start.cpu[t] && now.node[t] == start.node[t]
    {
      assert t !in batch[..i];
    }
  }
}
