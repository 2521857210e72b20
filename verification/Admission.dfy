/** Bringing the solver's thread records in line with a window's threads
(src/solver.cpp:607-730): who is dropped, who is new, where a newcomer is headed, and
which phase follows. */
module Admission {
  import opened Lists
  import opened Counting
  import opened Topology
  import opened Threads
  import opened NodePlanner
  import opened Pinning
  import opened SolverState

  // ----- a seat for a newcomer (lines 625-691) -----

  /** Where the known threads are, or are headed. */
  function Whereabouts(placement: map<int, int>, targets: map<int, int>): map<int, int> {
    targets + placement
  }

  function SeatPull(latency: (int, int) -> real, nodeOf: map<int, int>, edges: seq<Edge>, tid: int, at: map<int, int>, node: int): real {
    if edges == [] then 0.0
    else
      var e, rest := edges[0], SeatPull(latency, nodeOf, edges[1..], tid, at, node);
      if Touches(e, tid) && Other(e, tid) in at
      then e.score * latency(node, Get(nodeOf, at[Other(e, tid)])) + rest
      else rest
  }

  /** The known threads of a group that are on a node. */
  function GroupOn(hw: Machine, threads: map<int, Thread>, at: map<int, int>, group: nat, node: int): set<int> {
    set t | t in threads && t in at && threads[t].group == group && CpuNode(hw, at[t]) == node
  }

  function SeatNodeKey(hw: Machine, opt: Options, m: nat, threads: map<int, Thread>, at: map<int, int>, nodeAt: map<int, int>,
                       demand: map<int, real>, edges: seq<Edge>, th: Thread, node: int): seq<real>
  {
    var size := NodeSize(hw, node);
    var load := Load(Ascending(threads.Keys), demand, nodeAt, node);
    [ MaxInt(0, Count(nodeAt, node) + 1 - Ceil(Share(m, size, |hw.cpus|) * (1.0 + opt.slack))) as real,
      Max(0.0, load + th.demand - size as real),
      SeatPull((a, b) => NodeLatency(hw, a, b), NodeMap(hw), edges, th.id.tid, at, node),
      (load + th.demand) / MaxInt(size, 1) as real,
      -(|GroupOn(hw, threads, at, th.group, node)|) as real,
      Bit(node != CpuNode(hw, th.cpu)),
      node as real ]
  }

  function SeatCpuKey(slot: int, threads: map<int, Thread>, at: map<int, int>, demand: map<int, real>, th: Thread, cpu: int): seq<real> {
    var load := Load(Ascending(threads.Keys), demand, at, cpu);
    [ Bit(Count(at, cpu) >= slot), Max(0.0, load + th.demand - 1.0), load + th.demand, Count(at, cpu) as real, cpu as real ]
  }

  method ChooseSeatCpu(candidates: seq<int>, slot: int, threads: map<int, Thread>, at: map<int, int>, demand: map<int, real>, th: Thread)
    returns (cpu: int)
    requires candidates != []
    ensures cpu in candidates
    ensures forall c :: c in candidates ==> !LexLess(SeatCpuKey(slot, threads, at, demand, th, c), SeatCpuKey(slot, threads, at, demand, th, cpu))
    ensures (exists c :: c in candidates && Count(at, c) < slot) ==> Count(at, cpu) < slot
  {
    cpu := ArgMin(candidates, c => SeatCpuKey(slot, threads, at, demand, th, c));
    if exists c :: c in candidates && Count(at, c) < slot {
      var c :| c in candidates && Count(at, c) < slot;
      hide Count, Load, Ascending;
      LexFirst(SeatCpuKey(slot, threads, at, demand, th, c), SeatCpuKey(slot, threads, at, demand, th, cpu));
    }
  }

  /** The seat is on the machine, on the best node and there on the best CPU. */
  ghost predicate IsSeat(hw: Machine, opt: Options, slot: int, m: nat, threads: map<int, Thread>,
                         placement: map<int, int>, targets: map<int, int>, edges: seq<Edge>, th: Thread, seat: Seat)
  {
    var at := Restrict(Whereabouts(placement, targets), threads.Keys);
    var nodeAt, demand := map t | t in at :: CpuNode(hw, at[t]), map t | t in threads :: threads[t].demand;
    && seat.cpu in NodeMap(hw) && NodeMap(hw)[seat.cpu] == seat.node
    && (forall n :: n in Nodes(hw) ==> !LexLess(SeatNodeKey(hw, opt, m, threads, at, nodeAt, demand, edges, th, n),
                                                SeatNodeKey(hw, opt, m, threads, at, nodeAt, demand, edges, th, seat.node)))
    && (forall c :: c in CpusIn(hw, seat.node) ==> !LexLess(SeatCpuKey(slot, threads, at, demand, th, c),
                                                            SeatCpuKey(slot, threads, at, demand, th, seat.cpu)))
  }

  /** The seat is never on a full CPU of its node while a CPU of the node has a free slot. */
  method ChooseSeat(hw: Machine, opt: Options, slot: int, m: nat, threads: map<int, Thread>,
                    placement: map<int, int>, targets: map<int, int>, edges: seq<Edge>, th: Thread)
    returns (seat: Seat)
    ensures seat.cpu in NodeMap(hw) && NodeMap(hw)[seat.cpu] == seat.node
    ensures var at := Restrict(Whereabouts(placement, targets), threads.Keys);
      (exists c :: c in CpusIn(hw, seat.node) && Count(at, c) < slot) ==> Count(at, seat.cpu) < slot
    ensures IsSeat(hw, opt, slot, m, threads, placement, targets, edges, th, seat)
  {
    hide SeatNodeKey, SeatCpuKey;
    var at := Restrict(Whereabouts(placement, targets), threads.Keys);
    var nodeAt := map t | t in at :: CpuNode(hw, at[t]);
    var demand := map t | t in threads :: threads[t].demand;
    NodesCover(hw);
    var node := ArgMin(Nodes(hw), n => SeatNodeKey(hw, opt, m, threads, at, nodeAt, demand, edges, th, n));
    NodeNonEmpty(hw, node);
    CpusInNode(hw, node);
    hide *;
    var cpu := ChooseSeatCpu(CpusIn(hw, node), slot, threads, at, demand, th);
    seat := Seat(cpu, node);
    SeatIs(hw, opt, slot, m, threads, placement, targets, edges, th, seat, at, nodeAt, demand);
  }

  lemma SeatIs(hw: Machine, opt: Options, slot: int, m: nat, threads: map<int, Thread>, placement: map<int, int>, targets: map<int, int>,
               edges: seq<Edge>, th: Thread, seat: Seat, at: map<int, int>, nodeAt: map<int, int>, demand: map<int, real>)
    requires at == Restrict(Whereabouts(placement, targets), threads.Keys)
    requires nodeAt == (map t | t in at :: CpuNode(hw, at[t])) && demand == (map t | t in threads :: threads[t].demand)
    requires seat.cpu in NodeMap(hw) && NodeMap(hw)[seat.cpu] == seat.node
    requires forall n :: n in Nodes(hw) ==> !LexLess(SeatNodeKey(hw, opt, m, threads, at, nodeAt, demand, edges, th, n),
                                                     SeatNodeKey(hw, opt, m, threads, at, nodeAt, demand, edges, th, seat.node))
    requires forall c :: c in CpusIn(hw, seat.node) ==> !LexLess(SeatCpuKey(slot, threads, at, demand, th, c),
                                                                 SeatCpuKey(slot, threads, at, demand, th, seat.cpu))
    ensures IsSeat(hw, opt, slot, m, threads, placement, targets, edges, th, seat)
  {
    hide LexLess, SeatNodeKey, SeatCpuKey, CpusIn, Nodes, NodeMap;
  }

  // ----- records -----

  function TidSet(input: seq<Thread>): set<int> {
    set th | th in input :: th.id.tid
  }

  /** The thread is managed under the same identity already. */
  predicate Known(s: State, th: Thread) {
    th.id.tid in s.book.identities && s.book.identities[th.id.tid] == th.id
  }

  /** How many threads of a window are not managed under their identities yet. */
  function Newcomers(s: State, input: seq<Thread>): nat {
    if input == [] then 0
    else Newcomers(s, input[..|input| - 1]) + (if Known(s, input[|input| - 1]) then 0 else 1)
  }

  lemma NoNewcomers(s: State)
    ensures Newcomers(s, []) == 0
  {
  }

  lemma NewcomersStep(s: State, input: seq<Thread>, i: nat)
    requires i < |input|
    ensures Newcomers(s, input[..i + 1]) == Newcomers(s, input[..i]) + (if Known(s, input[i]) then 0 else 1)
  {
    hide Known;
    assert input[..i + 1][..i] == input[..i];
  }

  lemma {:induction false} SomeNewcomer(s: State, input: seq<Thread>)
    requires Newcomers(s, input) > 0
    ensures exists i :: 0 <= i < |input| && !Known(s, input[i])
  {
    hide Known;
    var n := |input| - 1;
    if Known(s, input[n]) {
      SomeNewcomer(s, input[..n]);
      var i :| 0 <= i < n && !Known(s, input[..n][i]);
      assert !Known(s, input[i]);
    }
  }

  /** The same threads, under the same identities, as are managed already. */
  ghost predicate Quiet(s: State, input: seq<Thread>) {
    && (forall th :: th in input ==> Known(s, th))
    && (forall t :: t in s.book.identities ==> t in TidSet(input))
  }

  predicate LatePhase(s: State) {
    s.phase == InitialPinning || s.phase == Optimizing
  }

  ghost predicate SameRecord(a: State, b: State, t: int) {
    && (t in a.place.placement <==> t in b.place.placement) && (t in a.place.placement ==> a.place.placement[t] == b.place.placement[t])
    && Lookup(a.place.lastMoved, t) == Lookup(b.place.lastMoved, t)
    && (t in a.plan.targets.cpu <==> t in b.plan.targets.cpu) && (t in a.plan.targets.cpu ==> a.plan.targets.cpu[t] == b.plan.targets.cpu[t])
  }

  /** Only the thread records and what hangs on them have changed. */
  ghost predicate SyncFrame(a: State, b: State) {
    && a.phase == b.phase && a.generation == b.generation && a.nextId == b.nextId && a.population == b.population
    && a.replan == b.replan && a.confirmation == b.confirmation && a.confirmations == b.confirmations
    && SubMap(b.plan.previous, a.plan.previous)
    && a.outstanding == b.outstanding && a.history.firstPlan == b.history.firstPlan && a.history.evals == b.history.evals && a.history.clock == b.history.clock
  }

  /** The first `k` threads of the window are in the records; the others are as before.
  A thread under a new identity has no placement and no move on record. */
  ghost predicate SyncRecords(s0: State, s: State, input: seq<Thread>, k: nat)
    requires k <= |input|
  {
    && (forall t :: t in s.book.threads ==> t in TidSet(input))
    && (forall i :: 0 <= i < k ==> input[i].id.tid in s.book.threads && s.book.threads[input[i].id.tid] == input[i])
    && (forall i :: 0 <= i < k && !Known(s0, input[i]) ==> input[i].id.tid !in s.place.placement && input[i].id.tid !in s.place.lastMoved)
    && (forall i :: k <= i < |input| && !Known(s0, input[i]) ==> !Known(s, input[i]))
    && (forall i :: 0 <= i < |input| && Known(s0, input[i]) ==> Known(s, input[i]) && SameRecord(s0, s, input[i].id.tid))
  }

  ghost predicate SyncPhase(s0: State, s: State, input: seq<Thread>, added: bool) {
    && (LatePhase(s) ==> s.book.threads.Keys <= s.plan.targets.cpu.Keys)
    && (s.phase == Optimizing && !added ==> s.place.pinned == s.book.threads.Keys)
    && (added ==> LatePhase(s))
    && (Quiet(s0, input) ==> !added && s == s0.(book := s0.book.(threads := s.book.threads)))
  }

  ghost predicate Synced(hw: Machine, opt: Options, s0: State, s: State, input: seq<Thread>, k: nat, added: bool)
    requires k <= |input|
  {
    && Core(hw, opt, s) && s.outstanding.None? && SyncFrame(s0, s)
    && SyncRecords(s0, s, input, k) && SyncPhase(s0, s, input, added)
  }

  /** What dropping stale threads leaves. */
  ghost predicate Trimmed(hw: Machine, opt: Options, s0: State, s: State, input: seq<Thread>) {
    && Core(hw, opt, s) && PhaseOk(s) && s.outstanding.None? && SyncFrame(s0, s)
    && s.book.threads.Keys <= s0.book.threads.Keys
    && (forall t :: t in s.book.identities ==> t in s0.book.identities && s.book.identities[t] == s0.book.identities[t])
    && (forall i :: 0 <= i < |input| && Known(s0, input[i]) ==> Known(s, input[i]) && SameRecord(s0, s, input[i].id.tid))
    && (Quiet(s0, input) ==> s == s0)
  }

  lemma TrimStep(hw: Machine, opt: Options, s0: State, s: State, input: seq<Thread>, tid: int)
    requires Trimmed(hw, opt, s0, s, input)
    requires tid in s0.book.threads && tid !in TidSet(input) && s0.book.identities.Keys == s0.book.threads.Keys
    ensures Trimmed(hw, opt, s0, Removed(s, tid), input)
  {
    hide Core, PhaseOk, NodeMap, SameRecord, Known, Quiet, TidSet;
    RemovedInv(hw, opt, s, tid);
    NotQuiet(s0, input, tid);
    forall i | 0 <= i < |input| && Known(s0, input[i])
      ensures Known(Removed(s, tid), input[i]) && SameRecord(s0, Removed(s, tid), input[i].id.tid)
    {
      NotInWindow(input, i, tid);
      RemovedOthers(s, tid, input[i]);
      SameRecordTrans(s0, s, Removed(s, tid), input[i].id.tid);
    }
  }

  lemma NotQuiet(s: State, input: seq<Thread>, tid: int)
    requires tid in s.book.identities && tid !in TidSet(input)
    ensures !Quiet(s, input)
  {
    hide Known;
  }

  lemma NotInWindow(input: seq<Thread>, i: nat, tid: int)
    requires i < |input| && tid !in TidSet(input)
    ensures input[i].id.tid != tid
  {
    assert input[i] in input;
  }

  lemma RemovedOthers(s: State, tid: int, th: Thread)
    requires th.id.tid != tid
    ensures SameRecord(s, Removed(s, tid), th.id.tid)
    ensures Known(s, th) ==> Known(Removed(s, tid), th)
  {
  }

  lemma SameRecordTrans(a: State, b: State, c: State, t: int)
    requires SameRecord(a, b, t) && SameRecord(b, c, t)
    ensures SameRecord(a, c, t)
  {
  }

  lemma TrimDone(hw: Machine, opt: Options, s0: State, s: State, input: seq<Thread>)
    requires Trimmed(hw, opt, s0, s, input)
    requires forall t :: t in s.book.threads ==> t in TidSet(input)
    ensures Synced(hw, opt, s0, s, input, 0, false)
  {
    hide Core, NodeMap, SameRecord;
    forall i | 0 <= i < |input| && !Known(s0, input[i])
      ensures !Known(s, input[i])
    {
    }
  }

  lemma RefreshRecords(s0: State, s: State, input: seq<Thread>, k: nat)
    requires k < |input| && UniqueTids(input) && SyncRecords(s0, s, input, k) && Known(s, input[k])
    ensures SyncRecords(s0, Refreshed(s, input[k]), input, k + 1)
  {
    var r, th := Refreshed(s, input[k]), input[k];
    assert th in input && th.id.tid in TidSet(input);
    assert Known(s0, th);
    forall i | 0 <= i < |input|
      ensures Known(r, input[i]) <==> Known(s, input[i])
      ensures SameRecord(s0, s, input[i].id.tid) ==> SameRecord(s0, r, input[i].id.tid)
    {
    }
  }

  lemma RefreshStep(hw: Machine, opt: Options, s0: State, s: State, input: seq<Thread>, k: nat, added: bool)
    requires k < |input| && UniqueTids(input) && Synced(hw, opt, s0, s, input, k, added) && Known(s, input[k])
    ensures Synced(hw, opt, s0, Refreshed(s, input[k]), input, k + 1, added)
  {
    RefreshRecords(s0, s, input, k);
    RefreshedCore(hw, opt, s, input[k]);
    hide Core, SyncRecords, Quiet;
  }

  /** The records without a stale generation of the thread. */
  function Vacated(s: State, tid: int): State {
    if tid in s.book.identities then Removed(s, tid) else s
  }

  lemma AdmitRecords(s0: State, s: State, input: seq<Thread>, k: nat, seat: Option<Seat>)
    requires k < |input| && UniqueTids(input) && SyncRecords(s0, s, input, k) && !Known(s, input[k])
    requires s.book.identities.Keys == s.book.threads.Keys && s.place.placement.Keys <= s.book.threads.Keys && s.place.lastMoved.Keys <= s.book.threads.Keys
    ensures SyncRecords(s0, Admitted(Vacated(s, input[k].id.tid), input[k], seat), input, k + 1)
  {
    var th := input[k];
    var r := Admitted(Vacated(s, th.id.tid), th, seat);
    assert th in input && th.id.tid in TidSet(input);
    AdmitSelf(s, th, seat);
    hide Admitted, Vacated, Known, SameRecord, TidSet;
    forall i | 0 <= i < |input| && i != k
      ensures Known(r, input[i]) <==> Known(s, input[i])
      ensures SameRecord(s0, s, input[i].id.tid) ==> SameRecord(s0, r, input[i].id.tid)
      ensures input[i].id.tid in r.book.threads <==> input[i].id.tid in s.book.threads
      ensures input[i].id.tid in s.book.threads ==> r.book.threads[input[i].id.tid] == s.book.threads[input[i].id.tid]
      ensures input[i].id.tid in r.place.placement <==> input[i].id.tid in s.place.placement
      ensures input[i].id.tid in r.place.lastMoved <==> input[i].id.tid in s.place.lastMoved
    {
      assert input[i].id.tid != th.id.tid;
      AdmitOthers(s, th, seat, input[i]);
      if SameRecord(s0, s, input[i].id.tid) {
        SameRecordTrans(s0, s, r, input[i].id.tid);
      }
    }
  }

  lemma AdmitSelf(s: State, th: Thread, seat: Option<Seat>)
    requires s.book.identities.Keys == s.book.threads.Keys && s.place.placement.Keys <= s.book.threads.Keys && s.place.lastMoved.Keys <= s.book.threads.Keys
    ensures var r := Admitted(Vacated(s, th.id.tid), th, seat);
      && r.book.threads.Keys == s.book.threads.Keys + {th.id.tid} && r.book.threads[th.id.tid] == th
      && Known(r, th) && th.id.tid !in r.place.placement && th.id.tid !in r.place.lastMoved
  {
  }

  lemma AdmitOthers(s: State, th: Thread, seat: Option<Seat>, o: Thread)
    requires o.id.tid != th.id.tid
    ensures var r, t := Admitted(Vacated(s, th.id.tid), th, seat), o.id.tid;
      && (Known(r, o) <==> Known(s, o)) && SameRecord(s, r, t)
      && (t in r.book.threads <==> t in s.book.threads) && (t in s.book.threads ==> r.book.threads[t] == s.book.threads[t])
      && (t in r.place.placement <==> t in s.place.placement) && (t in r.place.lastMoved <==> t in s.place.lastMoved)
  {
    if th.id.tid in s.book.identities {
      RemovedOthers(s, th.id.tid, o);
    }
  }

  lemma AdmitPhase(s0: State, s: State, input: seq<Thread>, k: nat, added: bool, seat: Option<Seat>)
    requires k < |input| && SyncPhase(s0, s, input, added) && !Known(s, input[k])
    requires seat.Some? <==> LatePhase(s)
    requires Quiet(s0, input) ==> Known(s, input[k])
    ensures SyncPhase(s0, Admitted(Vacated(s, input[k].id.tid), input[k], seat), input, added || LatePhase(s))
  {
    hide Quiet;
  }

  lemma AdmitStep(hw: Machine, opt: Options, s0: State, s: State, input: seq<Thread>, k: nat, added: bool, seat: Option<Seat>)
    requires k < |input| && UniqueTids(input) && Synced(hw, opt, s0, s, input, k, added) && !Known(s, input[k])
    requires seat.Some? <==> LatePhase(s)
    requires seat.Some? ==> seat.value.cpu in NodeMap(hw) && NodeMap(hw)[seat.value.cpu] == seat.value.node
    ensures Synced(hw, opt, s0, Admitted(Vacated(s, input[k].id.tid), input[k], seat), input, k + 1, added || LatePhase(s))
  {
    hide Core, NodeMap, SyncRecords, SyncPhase, SyncFrame, Quiet, Known, LatePhase, Admitted, Vacated;
    var th := input[k];
    VacatedCore(hw, opt, s, th.id.tid);
    CorePinned(hw, opt, s);
    QuietKnown(s0, s, input, k);
    AdmitRecords(s0, s, input, k, seat);
    AdmitPhase(s0, s, input, k, added, seat);
    AdmitFrame(s0, s, th, seat);
    AdmittedCore(hw, opt, Vacated(s, th.id.tid), th, seat);
  }

  lemma AdmitFrame(s0: State, s: State, th: Thread, seat: Option<Seat>)
    requires SyncFrame(s0, s) && s.outstanding.None?
    ensures SyncFrame(s0, Admitted(Vacated(s, th.id.tid), th, seat))
    ensures Vacated(s, th.id.tid).outstanding.None? && Admitted(Vacated(s, th.id.tid), th, seat).outstanding.None?
  {
  }

  lemma VacatedCore(hw: Machine, opt: Options, s: State, tid: int)
    requires Core(hw, opt, s)
    ensures Core(hw, opt, Vacated(s, tid)) && tid !in Vacated(s, tid).book.threads
  {
    CorePinned(hw, opt, s);
    RemovedInv(hw, opt, s, tid);
    hide Core;
  }

  lemma QuietKnown(s0: State, s: State, input: seq<Thread>, k: nat)
    requires k < |input| && SyncRecords(s0, s, input, k)
    ensures Quiet(s0, input) ==> Known(s, input[k])
  {
    assert input[k] in input;
  }

  /** The newcomer at a place of the window was sent to the best seat, given the records at the time
  when those before it had been entered. */
  ghost predicate SeatedAt(hw: Machine, opt: Options, s0: State, targets: Targets, input: seq<Thread>, edges: seq<Edge>, slot: int, i: nat)
    requires i < |input|
  {
    exists u, added, seat :: SeatedBy(hw, opt, s0, targets, input, edges, slot, i, u, added, seat)
  }

  ghost predicate SeatedBy(hw: Machine, opt: Options, s0: State, targets: Targets, input: seq<Thread>, edges: seq<Edge>, slot: int, i: nat,
                           u: State, added: bool, seat: Seat)
    requires i < |input|
  {
    var v := Vacated(u, input[i].id.tid);
    && Synced(hw, opt, s0, u, input, i, added) && !Known(u, input[i])
    && IsSeat(hw, opt, slot, |input|, v.book.threads, v.place.placement, v.plan.targets.cpu, edges, input[i], seat)
    && input[i].id.tid in targets.cpu && targets.cpu[input[i].id.tid] == seat.cpu
    && input[i].id.tid in targets.node && targets.node[input[i].id.tid] == seat.node
  }

  /** Every newcomer of a solver that has its targets was seated so. */
  ghost predicate Seated(hw: Machine, opt: Options, s0: State, targets: Targets, input: seq<Thread>, edges: seq<Edge>, slot: int, k: nat)
    requires k <= |input|
  {
    LatePhase(s0) ==> forall i :: 0 <= i < k && !Known(s0, input[i]) ==> SeatedAt(hw, opt, s0, targets, input, edges, slot, i)
  }

  lemma SeatedStill(hw: Machine, opt: Options, s0: State, a: Targets, b: Targets, input: seq<Thread>, edges: seq<Edge>, slot: int, k: nat)
    requires k < |input| && UniqueTids(input) && Seated(hw, opt, s0, a, input, edges, slot, k)
    requires forall t :: t != input[k].id.tid ==> Get(b.cpu, t) == Get(a.cpu, t) && (t in a.cpu ==> t in b.cpu)
    requires forall t :: t != input[k].id.tid ==> Get(b.node, t) == Get(a.node, t) && (t in a.node ==> t in b.node)
    ensures Seated(hw, opt, s0, b, input, edges, slot, k)
  {
    if LatePhase(s0) {
      forall i | 0 <= i < k && !Known(s0, input[i])
        ensures SeatedAt(hw, opt, s0, b, input, edges, slot, i)
      {
        hide Synced, IsSeat, Known, Vacated, LatePhase;
        assert SeatedAt(hw, opt, s0, a, input, edges, slot, i);
        var u, added, seat :| SeatedBy(hw, opt, s0, a, input, edges, slot, i, u, added, seat);
        assert input[i].id.tid != input[k].id.tid;
        assert SeatedBy(hw, opt, s0, b, input, edges, slot, i, u, added, seat);
      }
    }
  }

  lemma SeatedNobody(hw: Machine, opt: Options, s0: State, targets: Targets, input: seq<Thread>, edges: seq<Edge>, slot: int)
    ensures Seated(hw, opt, s0, targets, input, edges, slot, 0)
  {
  }

  /** A known thread needs no seat. */
  lemma SeatedKnown(hw: Machine, opt: Options, s0: State, targets: Targets, input: seq<Thread>, edges: seq<Edge>, slot: int, k: nat)
    requires k < |input| && Seated(hw, opt, s0, targets, input, edges, slot, k) && (Known(s0, input[k]) || !LatePhase(s0))
    ensures Seated(hw, opt, s0, targets, input, edges, slot, k + 1)
  {
    hide SeatedAt, Known, LatePhase;
  }

  lemma SeatedNew(hw: Machine, opt: Options, s0: State, s: State, input: seq<Thread>, edges: seq<Edge>, slot: int, k: nat, added: bool, seat: Seat)
    requires k < |input| && UniqueTids(input) && Seated(hw, opt, s0, s.plan.targets, input, edges, slot, k)
    requires Synced(hw, opt, s0, s, input, k, added) && !Known(s, input[k])
    requires var v := Vacated(s, input[k].id.tid);
      IsSeat(hw, opt, slot, |input|, v.book.threads, v.place.placement, v.plan.targets.cpu, edges, input[k], seat)
    ensures Seated(hw, opt, s0, Admitted(Vacated(s, input[k].id.tid), input[k], Some(seat)).plan.targets, input, edges, slot, k + 1)
  {
    hide *;
    var next := Admitted(Vacated(s, input[k].id.tid), input[k], Some(seat)).plan.targets;
    AdmittedTargets(s, input[k], seat);
    SeatedStill(hw, opt, s0, s.plan.targets, next, input, edges, slot, k);
    SeatedHere(hw, opt, s0, s, next, input, edges, slot, k, added, seat);
    SeatedMore(hw, opt, s0, next, input, edges, slot, k);
  }

  lemma AdmittedTargets(s: State, th: Thread, seat: Seat)
    ensures var a, b, t := s.plan.targets, Admitted(Vacated(s, th.id.tid), th, Some(seat)).plan.targets, th.id.tid;
      && (forall u :: u != t ==> Get(b.cpu, u) == Get(a.cpu, u) && (u in a.cpu ==> u in b.cpu))
      && (forall u :: u != t ==> Get(b.node, u) == Get(a.node, u) && (u in a.node ==> u in b.node))
      && t in b.cpu && b.cpu[t] == seat.cpu && t in b.node && b.node[t] == seat.node
  {
  }

  lemma SeatedHere(hw: Machine, opt: Options, s0: State, s: State, next: Targets, input: seq<Thread>, edges: seq<Edge>, slot: int, k: nat,
                   added: bool, seat: Seat)
    requires k < |input| && Synced(hw, opt, s0, s, input, k, added) && !Known(s, input[k])
    requires var v := Vacated(s, input[k].id.tid);
      IsSeat(hw, opt, slot, |input|, v.book.threads, v.place.placement, v.plan.targets.cpu, edges, input[k], seat)
    requires input[k].id.tid in next.cpu && next.cpu[input[k].id.tid] == seat.cpu
    requires input[k].id.tid in next.node && next.node[input[k].id.tid] == seat.node
    ensures SeatedAt(hw, opt, s0, next, input, edges, slot, k)
  {
    hide Synced, IsSeat, Known, Vacated;
    assert SeatedBy(hw, opt, s0, next, input, edges, slot, k, s, added, seat);
  }

  lemma SeatedMore(hw: Machine, opt: Options, s0: State, targets: Targets, input: seq<Thread>, edges: seq<Edge>, slot: int, k: nat)
    requires k < |input| && Seated(hw, opt, s0, targets, input, edges, slot, k) && SeatedAt(hw, opt, s0, targets, input, edges, slot, k)
    ensures Seated(hw, opt, s0, targets, input, edges, slot, k + 1)
  {
    hide SeatedAt, Known, LatePhase;
  }

  // ----- what the history says about it -----

  /** The list goes on with one drop for each of those threads, and with nothing else. */
  ghost predicate DropsExactly(before: seq<Event>, after: seq<Event>, gone: set<int>) {
    && |after| == |before| + |gone| && after[..|before|] == before
    && (forall i :: |before| <= i < |after| ==> after[i].Dropped? && after[i].tid in gone)
    && (forall t :: t in gone ==> exists i :: |before| <= i < |after| && after[i] == Dropped(t))
  }

  lemma DropsNone(events: seq<Event>)
    ensures DropsExactly(events, events, {})
  {
  }

  lemma DropsMore(before: seq<Event>, after: seq<Event>, gone: set<int>, t: int)
    requires DropsExactly(before, after, gone) && t !in gone
    ensures DropsExactly(before, after + [Dropped(t)], gone + {t})
  {
    var more := after + [Dropped(t)];
    assert more[|after|] == Dropped(t);
    forall u | u in gone
      ensures exists i :: |before| <= i < |more| && more[i] == Dropped(u)
    {
      var i :| |before| <= i < |after| && after[i] == Dropped(u);
      assert more[i] == Dropped(u);
    }
  }

  /** The threads whose records a window ends: they are gone, or there under another identity. */
  ghost function Leavers(s: State, input: seq<Thread>): set<int> {
    set t | t in s.book.identities && !(exists th :: th in input && th.id == s.book.identities[t])
  }

  ghost predicate Replaced(s: State, input: seq<Thread>, k: nat, t: int)
    requires k <= |input|
  {
    exists i :: 0 <= i < k && input[i].id.tid == t && !Known(s, input[i])
  }

  /** Those of them that are dropped once the first `k` threads of the window are entered. */
  ghost function GoneBy(s: State, input: seq<Thread>, k: nat): set<int>
    requires k <= |input|
  {
    set t | t in s.book.identities && (t !in TidSet(input) || Replaced(s, input, k, t))
  }

  ghost predicate Dropping(s0: State, s: State, input: seq<Thread>, k: nat)
    requires k <= |input|
  {
    && DropsExactly(s0.history.events, s.history.events, GoneBy(s0, input, k))
    && (forall i :: k <= i < |input| ==> (input[i].id.tid in s.book.identities <==> input[i].id.tid in s0.book.identities))
  }

  /** The threads of a list that a window does not have. */
  function Missing(tids: seq<int>, input: seq<Thread>): set<int> {
    set t | t in tids && t !in TidSet(input)
  }

  ghost predicate DroppingStale(s0: State, s: State, input: seq<Thread>, tids: seq<int>) {
    && DropsExactly(s0.history.events, s.history.events, Missing(tids, input))
    && (forall i :: 0 <= i < |input| ==> (input[i].id.tid in s.book.identities <==> input[i].id.tid in s0.book.identities))
  }

  lemma StaleStart(s0: State, input: seq<Thread>)
    ensures DroppingStale(s0, s0, input, [])
  {
    assert Missing([], input) == {};
    DropsNone(s0.history.events);
  }

  lemma StaleStep(s0: State, s: State, input: seq<Thread>, tids: seq<int>, i: nat)
    requires i < |tids| && Distinct(tids) && DroppingStale(s0, s, input, tids[..i])
    ensures DroppingStale(s0, if tids[i] in TidSet(input) then s else Removed(s, tids[i]), input, tids[..i + 1])
  {
    hide DropsExactly, TidSet;
    var t, few, more := tids[i], Missing(tids[..i], input), Missing(tids[..i + 1], input);
    assert tids[..i + 1] == tids[..i] + [t];
    if t in TidSet(input) {
      assert more == few;
    } else {
      assert t !in few && more == few + {t};
      DropsMore(s0.history.events, s.history.events, few, t);
      forall j | 0 <= j < |input|
        ensures input[j].id.tid != t
      {
        NotInWindow(input, j, t);
      }
    }
  }

  lemma StaleEnds(s0: State, s: State, input: seq<Thread>, tids: seq<int>)
    requires DroppingStale(s0, s, input, tids) && forall t :: t in tids <==> t in s0.book.identities
    ensures Dropping(s0, s, input, 0)
  {
    hide DropsExactly, TidSet;
    forall t
      ensures t in Missing(tids, input) <==> t in GoneBy(s0, input, 0)
    {
    }
    assert Missing(tids, input) == GoneBy(s0, input, 0);
  }

  lemma GoneStep(s: State, input: seq<Thread>, k: nat)
    requires k < |input| && UniqueTids(input)
    ensures var t := input[k].id.tid;
      && t !in GoneBy(s, input, k)
      && GoneBy(s, input, k + 1) == if t in s.book.identities && !Known(s, input[k]) then GoneBy(s, input, k) + {t} else GoneBy(s, input, k)
  {
    hide Known;
    var th := input[k];
    var t := th.id.tid;
    assert th in input;
    assert t in TidSet(input);
    hide TidSet;
    forall u
      ensures Replaced(s, input, k + 1, u) <==> Replaced(s, input, k, u) || (u == t && !Known(s, input[k]))
    {
    }
    assert !Replaced(s, input, k, t);
    hide Replaced;
    var next := if t in s.book.identities && !Known(s, input[k]) then GoneBy(s, input, k) + {t} else GoneBy(s, input, k);
    forall u
      ensures u in GoneBy(s, input, k + 1) <==> u in next
    {
    }
  }

  lemma DropKnown(s0: State, s: State, input: seq<Thread>, k: nat)
    requires k < |input| && UniqueTids(input) && Dropping(s0, s, input, k) && Known(s0, input[k])
    ensures Dropping(s0, Refreshed(s, input[k]), input, k + 1)
  {
    hide DropsExactly, GoneBy, Known;
    GoneStep(s0, input, k);
  }

  lemma DropNew(s0: State, s: State, input: seq<Thread>, k: nat, seat: Option<Seat>)
    requires k < |input| && UniqueTids(input) && Dropping(s0, s, input, k) && !Known(s0, input[k])
    ensures Dropping(s0, Admitted(Vacated(s, input[k].id.tid), input[k], seat), input, k + 1)
  {
    hide DropsExactly, GoneBy, Known;
    var t := input[k].id.tid;
    GoneStep(s0, input, k);
    if t in s.book.identities {
      DropsMore(s0.history.events, s.history.events, GoneBy(s0, input, k), t);
    }
    forall i | k + 1 <= i < |input|
      ensures input[i].id.tid != t
    {
    }
  }

  lemma GoneAll(s: State, input: seq<Thread>)
    requires RecordsOk(s) && UniqueTids(input)
    ensures GoneBy(s, input, |input|) == Leavers(s, input)
  {
    forall t | t in s.book.identities
      ensures t in GoneBy(s, input, |input|) <==> t in Leavers(s, input)
    {
      assert s.book.identities[t].tid == t;
      if exists th :: th in input && th.id == s.book.identities[t] {
        var th :| th in input && th.id == s.book.identities[t];
        assert Known(s, th) && t in TidSet(input);
        var i :| 0 <= i < |input| && input[i] == th;
        assert !Replaced(s, input, |input|, t);
      } else if t in TidSet(input) {
        var th :| th in input && th.id.tid == t;
        var i :| 0 <= i < |input| && input[i] == th;
        assert !Known(s, input[i]);
        assert Replaced(s, input, |input|, t);
      }
    }
  }

  lemma DroppedAll(hw: Machine, opt: Options, s0: State, s: State, input: seq<Thread>)
    requires Core(hw, opt, s0) && UniqueTids(input) && Dropping(s0, s, input, |input|)
    ensures DropsExactly(s0.history.events, s.history.events, Leavers(s0, input))
  {
    hide DropsExactly, GoneBy, Leavers, Records, Placed, Plans, Moves, Streaks, Slots, Pending, NodeMap, Targets.For;
    GoneAll(s0, input);
  }

  // ----- the phase that follows (lines 698-730) -----

  predicate SubstantialGrowth(opt: Options, s: State, arrivals: nat) {
    && s.population > 0
    && arrivals >= opt.growthMin
    && |s.book.threads| >= Ceil(s.population as real * (1.0 + opt.growthRatio))
  }

  /** A large cohort growth starts a global replan, other newcomers are pinned. */
  function Arrived(opt: Options, s: State, arrivals: nat, added: bool): State {
    if added && SubstantialGrowth(opt, s, arrivals)
    then s.(phase := NodePlanning, replan := true, confirmation := 0,
            plan := Plan(s.plan.targets, map[], map[]), history := s.history.(firstPlan := map[]))
    else if added then s.(phase := InitialPinning)
    else s
  }

  function Promoted(s: State): State {
    if s.phase == InitialPinning && TargetsEffective(s) then s.(phase := Optimizing) else s
  }

  function Settled(opt: Options, s: State, arrivals: nat, added: bool): State {
    Promoted(Arrived(opt, s, arrivals, added))
  }

  lemma ArrivedInv(hw: Machine, opt: Options, s0: State, s: State, input: seq<Thread>, arrivals: nat, added: bool)
    requires Synced(hw, opt, s0, s, input, |input|, added)
    ensures Inv(hw, opt, Arrived(opt, s, arrivals, added)) && Arrived(opt, s, arrivals, added).outstanding.None?
  {
    hide SyncRecords, SyncFrame, Quiet, SubstantialGrowth, Core;
    var t := Arrived(opt, s, arrivals, added);
    if added {
      SameCore(hw, opt, s, t);
      assert LatePhase(s) && s.book.threads.Keys <= s.plan.targets.cpu.Keys;
    }
    hide SyncPhase, TargetsEffective;
  }

  lemma PromotedInv(hw: Machine, opt: Options, s: State)
    requires Inv(hw, opt, s) && s.outstanding.None?
    ensures Inv(hw, opt, Promoted(s))
  {
    hide Core, OnTarget;
    SameCore(hw, opt, s, Promoted(s));
    if |s.place.pinned| == |s.book.threads| {
      CorePinned(hw, opt, s);
      AllPinned(s);
    }
  }

  lemma SettledInv(hw: Machine, opt: Options, s0: State, s: State, input: seq<Thread>, arrivals: nat, added: bool)
    requires Synced(hw, opt, s0, s, input, |input|, added)
    ensures Inv(hw, opt, Settled(opt, s, arrivals, added))
  {
    ArrivedInv(hw, opt, s0, s, input, arrivals, added);
    PromotedInv(hw, opt, Arrived(opt, s, arrivals, added));
    hide *;
    SettledIs(opt, s, arrivals, added);
  }

  lemma SettledIs(opt: Options, s: State, arrivals: nat, added: bool)
    ensures Settled(opt, s, arrivals, added) == Promoted(Arrived(opt, s, arrivals, added))
  {
    hide Promoted, Arrived;
  }

  lemma SettledTargets(opt: Options, s: State, arrivals: nat, added: bool)
    ensures Promoted(Arrived(opt, s, arrivals, added)).plan.targets == s.plan.targets
  {
    hide SubstantialGrowth, TargetsEffective;
  }

  lemma CorePinned(hw: Machine, opt: Options, s: State)
    requires Core(hw, opt, s)
    ensures s.place.pinned <= s.book.threads.Keys && s.place.placement.Keys == s.place.pinned
    ensures s.book.identities.Keys == s.book.threads.Keys && s.place.lastMoved.Keys <= s.book.threads.Keys
  {
    hide Plans, Streaks, Slots, Pending, Targets.For, NodeMap, LastMove;
    forall t | t in s.place.lastMoved
      ensures t in s.book.threads
    {
    }
  }

  lemma SameCore(hw: Machine, opt: Options, s: State, t: State)
    requires Core(hw, opt, s) && s.outstanding.None? && t.outstanding.None?
    requires t.book == s.book && t.place == s.place && t.confirmations == s.confirmations
    requires t.plan.targets == s.plan.targets && t.history == s.history.(firstPlan := t.history.firstPlan)
    requires (t.plan == s.plan && t.history == s.history)
          || (t.plan == Plan(s.plan.targets, map[], map[]) && t.history.firstPlan == map[])
    ensures Core(hw, opt, t)
  {
    SubMapEmpty();
    hide Records, Placed, Moves, Streaks, Slots, NodeMap, Targets.For, Nodes, Band, Roomy;
  }

  lemma SubMapEmpty()
    ensures SubMap(map[], map[])
  {
  }

  /** With the same threads as before nothing is dropped, added or replanned. */
  lemma SettledQuiet(hw: Machine, opt: Options, s0: State, s: State, input: seq<Thread>, arrivals: nat, added: bool)
    requires Synced(hw, opt, s0, s, input, |input|, added) && Quiet(s0, input)
    ensures var t := Settled(opt, s, arrivals, added);
      && t == s0.(book := s0.book.(threads := s.book.threads), phase := t.phase)
      && t.phase == (if s0.phase == InitialPinning && TargetsEffective(s) then Optimizing else s0.phase)
  {
    hide Core, SyncRecords, SyncFrame, Quiet, OnTarget, SubstantialGrowth, TargetsEffective;
  }

  lemma TrimStart(hw: Machine, opt: Options, s: State, input: seq<Thread>)
    requires Core(hw, opt, s) && PhaseOk(s) && s.outstanding.None?
    ensures Trimmed(hw, opt, s, s, input)
  {
    hide Core, PhaseOk, NodeMap;
  }

  lemma RemovedThreads(s: State, tid: int)
    ensures Removed(s, tid).book.threads == s.book.threads - {tid}
  {
  }

  lemma KnownIs(s: State, th: Thread)
    ensures Known(s, th) <==> th.id.tid in s.book.identities && s.book.identities[th.id.tid] == th.id
  {
  }

  lemma VacatedIs(s: State, tid: int)
    ensures Vacated(s, tid) == if tid in s.book.identities then Removed(s, tid) else s
    ensures Vacated(s, tid).phase == s.phase
  {
  }

  lemma LatePhaseIs(s: State)
    ensures LatePhase(s) <==> s.phase == InitialPinning || s.phase == Optimizing
  {
  }

  /** What a window's threads do to the records: they become exactly the managed threads; a
  thread under a new identity starts with no placement and no move on record; a known thread
  keeps both; and the same threads as before change nothing but demands and, at most, the
  promotion to the optimizing phase. */
  ghost predicate SyncDone(hw: Machine, opt: Options, s0: State, s: State, input: seq<Thread>) {
    && s.outstanding.None? && s.generation == s0.generation && s.nextId == s0.nextId && s.history.clock == s0.history.clock && s.history.evals == s0.history.evals
    && s.confirmations == s0.confirmations && s.book.threads.Keys == TidSet(input)
    && (forall i :: 0 <= i < |input| ==> input[i].id.tid in s.book.threads && s.book.threads[input[i].id.tid] == input[i])
    && (forall i :: 0 <= i < |input| && !Known(s0, input[i]) ==> input[i].id.tid !in s.place.placement && input[i].id.tid !in s.place.lastMoved)
    && (forall i :: 0 <= i < |input| && Known(s0, input[i]) ==>
          input[i].id.tid in s.book.identities && s.book.identities[input[i].id.tid] == input[i].id
          && Lookup(s.place.lastMoved, input[i].id.tid) == Lookup(s0.place.lastMoved, input[i].id.tid)
          && (input[i].id.tid in s.place.placement <==> input[i].id.tid in s0.place.placement)
          && (input[i].id.tid in s.place.placement ==> s.place.placement[input[i].id.tid] == s0.place.placement[input[i].id.tid]))
    && (!LatePhase(s0) ==> s.phase == s0.phase && s.replan == s0.replan && SubMap(s.plan.previous, s0.plan.previous))
    && PhaseFollows(opt, s0, s, input)
    && DropsExactly(s0.history.events, s.history.events, Leavers(s0, input))
    && (Quiet(s0, input) ==>
          && s == s0.(book := s0.book.(threads := s.book.threads), phase := s.phase)
          && s.book.threads.Keys == s0.book.identities.Keys
          && s.phase == (if s0.phase == InitialPinning && TargetsEffective(s) then Optimizing else s0.phase))
  }

  lemma StillKnown(hw: Machine, opt: Options, s0: State, s: State, input: seq<Thread>, k: nat, added: bool)
    requires k < |input| && Synced(hw, opt, s0, s, input, k, added)
    ensures Known(s, input[k]) <==> Known(s0, input[k])
    ensures LatePhase(s) <==> LatePhase(s0)
  {
    hide Core, Known, SameRecord, SyncPhase, TidSet;
  }

  /** Newcomers of a solver that has its targets lead back to pinning, or, if there are many of
  them, to a new plan for everybody; without newcomers only the promotion is possible. */
  ghost predicate PhaseFollows(opt: Options, s0: State, s: State, input: seq<Thread>) {
    LatePhase(s0) ==>
      var n := Newcomers(s0, input);
      if n > 0 && s0.population > 0 && n >= opt.growthMin && |TidSet(input)| >= Ceil(s0.population as real * (1.0 + opt.growthRatio))
      then s.phase == NodePlanning && s.replan && s.confirmation == 0 && s.plan.previous == map[]
      else
        && s.replan == s0.replan
        && s.phase == if n > 0 then InitialPinning else if s0.phase == InitialPinning && TargetsEffective(s) then Optimizing else s0.phase
  }

  lemma SettledPhase(opt: Options, s: State, arrivals: nat, added: bool)
    requires added ==> |s.place.pinned| != |s.book.threads|
    ensures var t := Settled(opt, s, arrivals, added);
      if added && SubstantialGrowth(opt, s, arrivals)
      then t.phase == NodePlanning && t.replan && t.confirmation == 0 && t.plan.previous == map[]
      else
        && t.replan == s.replan
        && t.phase == if added then InitialPinning else if s.phase == InitialPinning && TargetsEffective(t) then Optimizing else s.phase
  {
    hide SubstantialGrowth;
    EffectiveSame(s, s.(phase := Optimizing));
    hide TargetsEffective;
  }

  lemma PhaseFollowsSync(hw: Machine, opt: Options, s0: State, s: State, input: seq<Thread>, arrivals: nat, added: bool)
    requires Synced(hw, opt, s0, s, input, |input|, added)
    requires arrivals == Newcomers(s0, input) && (added <==> arrivals > 0 && LatePhase(s0))
    ensures PhaseFollows(opt, s0, Settled(opt, s, arrivals, added), input)
  {
    hide *;
    SyncedFrame(hw, opt, s0, s, input, added);
    if added {
      SomeNewcomer(s0, input);
      CorePinned(hw, opt, s);
      NotAllPinned(s0, s, input);
    }
    SettledPhase(opt, s, arrivals, added);
    PhaseFollowsIs(opt, s0, s, Settled(opt, s, arrivals, added), input, arrivals, added);
  }

  lemma PhaseFollowsIs(opt: Options, s0: State, s: State, t: State, input: seq<Thread>, arrivals: nat, added: bool)
    requires arrivals == Newcomers(s0, input) && (added <==> arrivals > 0 && LatePhase(s0))
    requires s.phase == s0.phase && s.population == s0.population && s.replan == s0.replan && |s.book.threads| == |TidSet(input)|
    requires
      if added && SubstantialGrowth(opt, s, arrivals)
      then t.phase == NodePlanning && t.replan && t.confirmation == 0 && t.plan.previous == map[]
      else
        && t.replan == s.replan
        && t.phase == if added then InitialPinning else if s.phase == InitialPinning && TargetsEffective(t) then Optimizing else s.phase
    ensures PhaseFollows(opt, s0, t, input)
  {
    hide Newcomers, LatePhase, TidSet, TargetsEffective;
    var a, b := s.population as real * (1.0 + opt.growthRatio), s0.population as real * (1.0 + opt.growthRatio);
    assert a == b;
    assert Ceil(a) == Ceil(b);
    assert SubstantialGrowth(opt, s, arrivals) <==>
      s.population > 0 && arrivals >= opt.growthMin && |s.book.threads| >= Ceil(a);
    assert LatePhase(s0) ==> (added && SubstantialGrowth(opt, s, arrivals) <==>
      && arrivals > 0 && s0.population > 0 && arrivals >= opt.growthMin
      && |TidSet(input)| >= Ceil(s0.population as real * (1.0 + opt.growthRatio)));
  }

  lemma SyncedFrame(hw: Machine, opt: Options, s0: State, s: State, input: seq<Thread>, added: bool)
    requires Synced(hw, opt, s0, s, input, |input|, added)
    ensures s.phase == s0.phase && s.population == s0.population && s.replan == s0.replan && Core(hw, opt, s)
    ensures |s.book.threads| == |TidSet(input)|
    ensures forall i :: 0 <= i < |input| ==> input[i].id.tid in s.book.threads
    ensures forall i :: 0 <= i < |input| && !Known(s0, input[i]) ==> input[i].id.tid !in s.place.placement
  {
    hide Core, SyncPhase, Known, SameRecord, TidSet;
    SyncDoneRecords(s0, s, s, input);
    assert |s.book.threads| == |s.book.threads.Keys|;
  }

  lemma NotAllPinned(s0: State, s: State, input: seq<Thread>)
    requires s.place.pinned <= s.book.threads.Keys && s.place.placement.Keys == s.place.pinned
    requires forall i :: 0 <= i < |input| ==> input[i].id.tid in s.book.threads
    requires forall i :: 0 <= i < |input| && !Known(s0, input[i]) ==> input[i].id.tid !in s.place.placement
    requires exists i :: 0 <= i < |input| && !Known(s0, input[i])
    ensures |s.place.pinned| != |s.book.threads|
  {
    hide Known;
    var i :| 0 <= i < |input| && !Known(s0, input[i]);
    var t := input[i].id.tid;
    assert t !in s.place.placement.Keys;
    ProperCard(s.place.pinned, s.book.threads.Keys);
    assert t in s.book.threads.Keys;
    assert |s.book.threads| == |s.book.threads.Keys|;
  }

  lemma SyncDoneRecords(s0: State, s: State, t: State, input: seq<Thread>)
    requires SyncRecords(s0, s, input, |input|)
    requires t.book.threads == s.book.threads && t.place.placement == s.place.placement && t.place.lastMoved == s.place.lastMoved && t.book.identities == s.book.identities
    ensures t.book.threads.Keys == TidSet(input)
    ensures forall i :: 0 <= i < |input| ==> input[i].id.tid in t.book.threads && t.book.threads[input[i].id.tid] == input[i]
    ensures forall i :: 0 <= i < |input| && !Known(s0, input[i]) ==> input[i].id.tid !in t.place.placement && input[i].id.tid !in t.place.lastMoved
    ensures forall i :: 0 <= i < |input| && Known(s0, input[i]) ==>
          input[i].id.tid in t.book.identities && t.book.identities[input[i].id.tid] == input[i].id
          && Lookup(t.place.lastMoved, input[i].id.tid) == Lookup(s0.place.lastMoved, input[i].id.tid)
          && (input[i].id.tid in t.place.placement <==> input[i].id.tid in s0.place.placement)
          && (input[i].id.tid in t.place.placement ==> t.place.placement[input[i].id.tid] == s0.place.placement[input[i].id.tid])
  {
    forall k
      ensures k in t.book.threads.Keys <==> k in TidSet(input)
    {
      if k in TidSet(input) {
        var th :| th in input && th.id.tid == k;
        var i :| 0 <= i < |input| && input[i] == th;
      }
    }
    assert t.book.threads.Keys == TidSet(input);
  }

  lemma SettledFrame(opt: Options, s: State, arrivals: nat, added: bool)
    ensures var t := Settled(opt, s, arrivals, added);
      && t.book == s.book && t.place == s.place && t.confirmations == s.confirmations && t.outstanding == s.outstanding
      && t.generation == s.generation && t.nextId == s.nextId
      && t.history.clock == s.history.clock && t.history.evals == s.history.evals && t.history.events == s.history.events
  {
    hide SubstantialGrowth, TargetsEffective;
  }

  lemma SyncDoneFrom(hw: Machine, opt: Options, s0: State, s: State, input: seq<Thread>, arrivals: nat, added: bool)
    requires Synced(hw, opt, s0, s, input, |input|, added)
    requires arrivals == Newcomers(s0, input) && (added <==> arrivals > 0 && LatePhase(s0))
    requires DropsExactly(s0.history.events, s.history.events, Leavers(s0, input))
    ensures SyncDone(hw, opt, s0, Settled(opt, s, arrivals, added), input)
  {
    var t := Settled(opt, s, arrivals, added);
    hide Core, Settled, Known, SyncPhase, TargetsEffective, Quiet, TidSet, PhaseFollows, Newcomers, DropsExactly, Leavers;
    PhaseFollowsSync(hw, opt, s0, s, input, arrivals, added);
    SettledFrame(opt, s, arrivals, added);
    SyncDoneRecords(s0, s, t, input);
    hide SyncRecords;
    if !LatePhase(s0) {
      SettledEarly(opt, s0, s, input, arrivals, added);
    }
    hide LatePhase;
    if Quiet(s0, input) {
      SettledQuiet(hw, opt, s0, s, input, arrivals, added);
      QuietThreads(hw, opt, s0, s, input, added);
      EffectiveSame(s, t);
    }
  }

  lemma SettledEarly(opt: Options, s0: State, s: State, input: seq<Thread>, arrivals: nat, added: bool)
    requires SyncFrame(s0, s) && SyncPhase(s0, s, input, added) && !LatePhase(s0)
    ensures Settled(opt, s, arrivals, added) == s
  {
    hide Quiet, TargetsEffective, SubstantialGrowth, SubMap;
  }

  lemma EffectiveSame(s: State, t: State)
    requires t == s.(phase := t.phase)
    ensures TargetsEffective(s) == TargetsEffective(t)
  {
  }

  lemma QuietThreads(hw: Machine, opt: Options, s0: State, s: State, input: seq<Thread>, added: bool)
    requires Synced(hw, opt, s0, s, input, |input|, added) && Quiet(s0, input)
    ensures s == s0.(book := s0.book.(threads := s.book.threads)) && s.book.identities.Keys == s.book.threads.Keys && s.book.identities == s0.book.identities
  {
    CorePinned(hw, opt, s);
    hide Core, SyncRecords, SyncFrame, Quiet;
  }

  lemma SyncClock(hw: Machine, opt: Options, s0: State, s: State, input: seq<Thread>)
    requires SyncDone(hw, opt, s0, s, input)
    ensures s.outstanding.None? && s.history.clock == s0.history.clock && s.history.evals == s0.history.evals
  {
    hide Quiet, Known, TidSet, PhaseFollows, TargetsEffective, DropsExactly, Leavers;
  }
}
