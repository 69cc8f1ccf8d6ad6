/** Graphs as the backend scheduler sees them, and what it knows about the backends. */
module SchedGraphs {
  import opened Wrappers

  datatype Buffer = Buffer(buft: nat, weights: bool, host: bool)

  datatype OpTensor = OpTensor(
    src: seq<nat>,           // the sources that are present, in slot order
    viewSrc: Option<nat>,
    viewOp: bool,            // VIEW, RESHAPE, PERMUTE or TRANSPOSE
    rope: bool,
    input: bool,
    buffer: Option<Buffer>)  // memory assigned before scheduling

  datatype RawOpGraph = RawOpGraph(tensors: seq<OpTensor>, nodes: seq<nat>, leafs: seq<nat>) {
    ghost predicate InRange() {
      && (forall i :: 0 <= i < |nodes| ==> nodes[i] < |tensors|)
      && (forall i :: 0 <= i < |leafs| ==> leafs[i] < |tensors|)
      && (forall t, j :: 0 <= t < |tensors| && 0 <= j < |tensors[t].src| ==> tensors[t].src[j] < |tensors|)
      && (forall t :: 0 <= t < |tensors| && tensors[t].viewSrc.Some? ==> tensors[t].viewSrc.value < |tensors|)
    }
  }

  type OpGraph = g: RawOpGraph | g.InRange() witness RawOpGraph([], [], [])

  /** The backends, in order of priority; the last one is the CPU. */
  datatype RawBackends = RawBackends(
    bufts: seq<nat>,                     // the buffer type each backend allocates in
    supportsOp: (nat, nat) -> bool,      // backend, tensor
    supportsBuft: (nat, nat) -> bool,    // backend, buffer type
    offload: (nat, nat) -> bool,         // backend, tensor
    opOffload: bool)

  /** There is a backend, and each supports the buffer type it allocates in. */
  type Backends = e: RawBackends | |e.bufts| > 0 && forall b :: 0 <= b < |e.bufts| ==> e.supportsBuft(b, e.bufts[b])
    witness RawBackends([0], (b, t) => true, (b, t) => true, (b, t) => false, false)

  const UNASSIGNED := -1

  function Root(g: OpGraph, t: nat): (r: nat)
    requires t < |g.tensors|
    ensures r < |g.tensors|
  {
    if g.tensors[t].viewSrc.Some? then g.tensors[t].viewSrc.value else t
  }

  function MemoryOf(g: OpGraph, t: nat): Option<Buffer>
    requires t < |g.tensors|
  {
    g.tensors[Root(g, t)].buffer
  }

  function Src(g: OpGraph, i: nat): (s: seq<nat>)
    requires i < |g.nodes|
    ensures forall j :: 0 <= j < |s| ==> s[j] < |g.tensors|
  {
    g.tensors[g.nodes[i]].src
  }

  /** Backend ids of all tensors; -1 when unassigned. */
  ghost predicate IdsOk(g: OpGraph, e: Backends, ids: seq<int>) {
    |ids| == |g.tensors| && forall t :: 0 <= t < |ids| ==> UNASSIGNED <= ids[t] < |e.bufts|
  }

  /** Backend `b` can read `t` where it is, or where its backend is going to put it. */
  predicate BufferSupported(g: OpGraph, e: Backends, ids: seq<int>, t: nat, b: nat)
    requires t < |g.tensors| == |ids|
  {
    match MemoryOf(g, t)
    case Some(buf) => e.supportsBuft(b, buf.buft)
    case None =>
      var id := if ids[t] == UNASSIGNED && g.tensors[t].viewSrc.Some? then ids[Root(g, t)] else ids[t];
      0 <= id < |e.bufts| && e.supportsBuft(b, e.bufts[id])
  }
}
