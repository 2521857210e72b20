/** Thread and relation records shared by the planners (include/affinitygraph/core.hpp). */
module Threads {

  datatype Identity = Identity(tgid: int, tid: int, starttime: nat)

  /** A sampled thread; `group` stands for its family name and `cpu` for the CPU it last ran on. */
  datatype Thread = Thread(id: Identity, group: nat, demand: real, cpu: int)

  datatype Edge = Edge(from: int, to: int, score: real)

  function IdentityKey(id: Identity): seq<real> {
    [id.tgid as real, id.tid as real, id.starttime as real]
  }

  function Other(e: Edge, tid: int): int {
    if e.from == tid then e.to else e.from
  }

  predicate Touches(e: Edge, tid: int) {
    e.from == tid || e.to == tid
  }

  /** No thread is listed twice. */
  predicate UniqueTids(input: seq<Thread>) {
    forall i, j :: 0 <= i < j < |input| ==> input[i].id.tid != input[j].id.tid
  }
}
