/** The CPU envelope of src/topology.cpp: which CPU is on which NUMA node, and how far
apart they are.  Discovery rejects offline CPUs, so every CPU of the envelope is online. */
module Topology {
  import opened Lists
  import opened Counting

  datatype Cpu = Cpu(id: int, node: int)

  datatype Hardware = Hardware(
    cpus: seq<Cpu>,
    cpuLatency: map<(int, int), real>,
    nodeDistance: map<(int, int), real>)
  {
    predicate Valid() {
      && cpus != []
      && (forall c :: c in cpus ==> c.id >= 0 && c.node >= 0)
      && (forall i, j :: 0 <= i < j < |cpus| ==> cpus[i].id != cpus[j].id)
    }
  }

  /** An envelope with at least one CPU and no CPU listed twice. */
  type Machine = h: Hardware | h.Valid() witness Hardware([Cpu(0, 0)], map[], map[])

  function Ids(hw: Machine): seq<int> {
    seq(|hw.cpus|, i requires 0 <= i < |hw.cpus| => hw.cpus[i].id)
  }

  function NodeMap(hw: Machine): (m: map<int, int>)
    ensures forall c :: c in hw.cpus ==> c.id in m && m[c.id] == c.node
    ensures forall k :: k in m ==> Cpu(k, m[k]) in hw.cpus
  {
    map c | c in hw.cpus :: c.id := c.node
  }

  function CpuNode(hw: Machine, cpu: int): int {
    if cpu in NodeMap(hw) then NodeMap(hw)[cpu] else -1
  }

  function Nodes(hw: Machine): seq<int> {
    Ascending(set c | c in hw.cpus :: c.node)
  }

  function CpusIn(hw: Machine, node: int): seq<int> {
    Ascending(Members(NodeMap(hw), node))
  }

  function NodeSize(hw: Machine, node: int): nat {
    Count(NodeMap(hw), node)
  }

  lemma IdsAreCpus(hw: Machine)
    ensures Distinct(Ids(hw)) && |Ids(hw)| == |hw.cpus|
    ensures forall k :: k in Ids(hw) <==> k in NodeMap(hw)
  {
    forall k
      ensures k in Ids(hw) <==> k in NodeMap(hw)
    {
      if k in Ids(hw) {
        var i :| 0 <= i < |Ids(hw)| && Ids(hw)[i] == k;
        assert hw.cpus[i] in hw.cpus;
      }
      if k in NodeMap(hw) {
        var c := Cpu(k, NodeMap(hw)[k]);
        assert c in hw.cpus;
        var i :| 0 <= i < |hw.cpus| && hw.cpus[i] == c;
        assert Ids(hw)[i] == k;
      }
    }
  }

  lemma NodesCover(hw: Machine)
    ensures Nodes(hw) != [] && Distinct(Nodes(hw))
    ensures forall k :: k in NodeMap(hw) ==> NodeMap(hw)[k] in Nodes(hw)
  {
    var nodes := set c | c in hw.cpus :: c.node;
    forall k | k in NodeMap(hw)
      ensures NodeMap(hw)[k] in Nodes(hw)
    {
      assert Cpu(k, NodeMap(hw)[k]) in hw.cpus;
      assert NodeMap(hw)[k] in nodes;
    }
    assert hw.cpus[0].node in nodes;
    assert hw.cpus[0].node in Nodes(hw);
  }

  /** The node sizes add up to the envelope. */
  lemma NodeSizesSum(hw: Machine)
    ensures Sum(Nodes(hw), n => NodeSize(hw, n)) == |hw.cpus|
  {
    NodesCover(hw);
    SumCounts(Nodes(hw), NodeMap(hw));
    IdsAreCpus(hw);
    DistinctLength(Ids(hw), NodeMap(hw).Keys);
    assert |NodeMap(hw)| == |NodeMap(hw).Keys|;
    SumEq(Nodes(hw), p => Count(NodeMap(hw), p), n => NodeSize(hw, n));
  }

  lemma {:induction false} DistinctLength(s: seq<int>, keys: set<int>)
    requires Distinct(s)
    requires forall x :: x in s <==> x in keys
    ensures |s| == |keys|
  {
    if s == [] {
      Inhabited(keys);
    } else {
      var x := s[0];
      assert x in keys;
      assert forall y :: y in s <==> y == x || y in s[1..];
      forall y
        ensures y in s[1..] <==> y in keys - {x}
      {
        if y in s[1..] {
          var i :| 0 <= i < |s[1..]| && s[1..][i] == y;
          assert s[i + 1] == y;
        }
      }
      DistinctLength(s[1..], keys - {x});
      CardWithout(keys, x);
    }
  }

  lemma NodeNonEmpty(hw: Machine, node: int)
    requires node in Nodes(hw)
    ensures NodeSize(hw, node) >= 1 && CpusIn(hw, node) != []
  {
    var nodes := set c | c in hw.cpus :: c.node;
    assert node in nodes;
    var c :| c in hw.cpus && c.node == node;
    assert c.id in Members(NodeMap(hw), node);
    assert c.id in CpusIn(hw, node);
  }

  lemma CpusInNode(hw: Machine, node: int)
    ensures forall c :: c in CpusIn(hw, node) ==> c in NodeMap(hw) && NodeMap(hw)[c] == node
    ensures Distinct(CpusIn(hw, node)) && |CpusIn(hw, node)| == NodeSize(hw, node)
  {
  }

  function Latency(hw: Machine, from: int, to: int): real {
    if from == to then 0.0
    else if (from, to) in hw.cpuLatency then hw.cpuLatency[(from, to)]
    else
      var a, b := CpuNode(hw, from), CpuNode(hw, to);
      if (a, b) in hw.nodeDistance then hw.nodeDistance[(a, b)]
      else if a == b then 10.0 else 20.0
  }

  /** Least latency between a CPU of `left` and a CPU of `right`, if there is one. */
  function LeastLatency(hw: Machine, left: seq<int>, right: seq<int>): Option<real>
    decreases |left| + |right|
  {
    if left == [] || right == [] then None
    else
      var here := Latency(hw, left[0], right[0]);
      var a := LeastLatency(hw, left[1..], right);
      var b := LeastLatency(hw, [left[0]], right[1..]);
      var c := if a.Some? && a.value < here then a.value else here;
      Some(if b.Some? && b.value < c then b.value else c)
  }

  function NodeLatency(hw: Machine, from: int, to: int): real {
    if (from, to) in hw.nodeDistance then hw.nodeDistance[(from, to)]
    else
      var best := LeastLatency(hw, CpusIn(hw, from), CpusIn(hw, to));
      if best.Some? then best.value else 1000000000000.0
  }
}
