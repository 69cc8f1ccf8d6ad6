/** From the splits to the memory planner: the graph copy as the planner sees it, and when it is a graph
    that the planner can be used for. */
module SchedPlanned {
  import opened Wrappers
  import opened SchedGraphs
  import opened SchedAssign
  import opened SchedSplit
  import opened SchedMeaning
  import opened SchedGraphCopy
  import G = Graphs
  import X = Executions
  import ExactPlans

  /** What the planner reads of a tensor and the scheduler does not. */
  datatype Facts = Facts(
    slots: seq<nat>,
    isNone: bool,
    canInplace: bool,
    output: bool,
    layout: G.Layout,
    size: seq<nat>)

  function TensorOf(x: OpTensor, src: seq<nat>, f: Facts): G.Tensor {
    G.Tensor(src, f.slots, x.viewSrc, f.isNone, f.canInplace, x.input, f.output, x.buffer.Some?, f.layout, f.size)
  }

  /** The graph before it is split. */
  function Unsplit(o: OpGraph, facts: seq<Facts>): G.Graph
    requires |o.tensors| <= |facts|
  {
    G.RawGraph(seq(|o.tensors|, t requires 0 <= t < |o.tensors| => TensorOf(o.tensors[t], o.tensors[t].src, facts[t])),
               o.nodes, o.leafs)
  }

  /** A copy: a tensor of its own, without operation, that is laid out like the original. */
  function CopyOf(f: Facts): G.Tensor {
    G.Tensor([], [], None, true, false, false, false, false, f.layout, f.size)
  }

  /** A view that keeps `t` alive: it has `t` as its only source. */
  function KeepOf(o: OpGraph, t: nat, f: Facts): G.Tensor
    requires t < |o.tensors|
  {
    G.Tensor([t], [0], Some(Root(o, t)), true, false, false, false, false, f.layout, f.size)
  }

  /** Tensors of the graph and copies have numbers below `|facts|`; the view at place `i` has number
      `|facts| + i`. */
  function NumberOf(x: CopyNode, i: nat, facts: seq<Facts>): nat {
    match x
    case Keep(_) => |facts| + i
    case Made(c) => c
    case Own(t) => t
  }

  /** Numbers are in range, and there are facts for the copies, too. */
  ghost predicate Numbered(o: OpGraph, r: SplitPlan, facts: seq<Facts>) {
    && Runnable(o, r) && |o.tensors| <= |facts|
    && (forall c :: c in r.copies ==> r.copies[c] < |facts|)
    && (forall t, j :: 0 <= t < |r.src| && 0 <= j < |r.src[t]| ==> r.src[t][j] < |facts|)
  }

  ghost predicate EntryInRange(o: OpGraph, facts: seq<Facts>, x: CopyNode) {
    match x
    case Keep(t) => t < |o.tensors|
    case Made(c) => c < |facts|
    case Own(t) => t < |o.tensors|
  }

  lemma {:induction false} InputsInRange(o: OpGraph, r: SplitPlan, facts: seq<Facts>, s: Split, n: nat)
    requires Numbered(o, r, facts) && SplitRunnable(o, r, s) && n <= |s.inputs|
    ensures forall i :: 0 <= i < 2 * n ==> EntryInRange(o, facts, InputNodes(o, r, s, n)[i])
  {
    if n > 0 { InputsInRange(o, r, facts, s, n - 1); }
  }

  lemma {:induction false} EntriesInRange(o: OpGraph, r: SplitPlan, facts: seq<Facts>, k: nat)
    requires Numbered(o, r, facts) && k <= |r.splits|
    ensures forall i :: 0 <= i < |CopyGraph(o, r, k)| ==> EntryInRange(o, facts, CopyGraph(o, r, k)[i])
  {
    if k > 0 {
      var s := r.splits[k - 1];
      EntriesInRange(o, r, facts, k - 1);
      InputsInRange(o, r, facts, s, |s.inputs|);
    }
  }

  ghost function TensorAt(o: OpGraph, r: SplitPlan, facts: seq<Facts>, t: nat): (x: G.Tensor)
    requires Numbered(o, r, facts) && t < |facts| + |CopyGraph(o, r, |r.splits|)|
    ensures forall j :: 0 <= j < |x.src| ==> x.src[j] < |facts|
    ensures x.viewSrc.Some? ==> x.viewSrc.value < |o.tensors|
  {
    if t < |o.tensors| then TensorOf(o.tensors[t], r.src[t], facts[t])
    else if t < |facts| then CopyOf(facts[t])
    else
      match CopyGraph(o, r, |r.splits|)[t - |facts|]
      case Keep(u) => EntriesInRange(o, r, facts, |r.splits|); KeepOf(o, u, facts[u])
      case _ => CopyOf(Facts([], true, false, false, G.Layout(0, [], []), []))
  }

  /** The graph copy as the planner sees it. */
  ghost function Copied(o: OpGraph, r: SplitPlan, facts: seq<Facts>): (p: G.Graph)
    requires Numbered(o, r, facts)
    ensures |p.tensors| == |facts| + |CopyGraph(o, r, |r.splits|)| && |p.nodes| == |CopyGraph(o, r, |r.splits|)|
    ensures forall t :: 0 <= t < |p.tensors| ==> p.tensors[t] == TensorAt(o, r, facts, t)
    ensures forall i :: 0 <= i < |p.nodes| ==> p.nodes[i] == NumberOf(CopyGraph(o, r, |r.splits|)[i], i, facts)
    ensures p.leafs == o.leafs
  {
    EntriesInRange(o, r, facts, |r.splits|);
    var list := CopyGraph(o, r, |r.splits|);
    G.RawGraph(
      seq(|facts| + |list|, t requires 0 <= t < |facts| + |list| => TensorAt(o, r, facts, t)),
      seq(|list|, i requires 0 <= i < |list| => NumberOf(list[i], i, facts)), o.leafs)
  }

  // ---- where things are

  /** Input `x` of split `k`, or its copy, or node `p` in split `k`. */
  datatype Spot = KeepSpot(k: nat, x: nat) | MadeSpot(k: nat, x: nat) | OwnSpot(k: nat, p: nat)

  predicate IsSpot(o: OpGraph, r: SplitPlan, s: Spot) {
    s.k < |r.splits| &&
    match s
    case OwnSpot(k, p) => r.splits[k].start <= p < r.splits[k].end <= |o.nodes|
    case _ => s.x < |r.splits[s.k].inputs|
  }

  /** Where split `k` starts in the copied graph. */
  ghost function From(o: OpGraph, r: SplitPlan, k: nat): nat
    requires Runnable(o, r) && k <= |r.splits|
  {
    |CopyGraph(o, r, k)|
  }

  ghost function PlaceOf(o: OpGraph, r: SplitPlan, s: Spot): nat
    requires Runnable(o, r) && IsSpot(o, r, s)
  {
    var from := From(o, r, s.k);
    match s
    case KeepSpot(_, x) => from + 2 * x
    case MadeSpot(_, x) => from + 2 * x + 1
    case OwnSpot(k, p) => from + 2 * |r.splits[k].inputs| + p - r.splits[k].start
  }

  ghost function EntryOf(o: OpGraph, r: SplitPlan, s: Spot): CopyNode
    requires Runnable(o, r) && IsSpot(o, r, s)
  {
    match s
    case KeepSpot(k, x) => Keep(r.splits[k].inputs[x])
    case MadeSpot(k, x) =>
      assert SplitRunnable(o, r, r.splits[k]);
      Made(r.copies[(r.splits[k].inputs[x], r.splits[k].backend)])
    case OwnSpot(_, p) => Own(o.nodes[p])
  }

  lemma {:induction false} FromGrows(o: OpGraph, r: SplitPlan, k: nat, l: nat)
    requires Runnable(o, r) && k <= l <= |r.splits|
    ensures From(o, r, k) <= From(o, r, l)
  {
    if k < l { FromGrows(o, r, k, l - 1); }
  }

  lemma NextFrom(o: OpGraph, r: SplitPlan, k: nat)
    requires Runnable(o, r) && k < |r.splits|
    ensures SplitRunnable(o, r, r.splits[k])
    ensures From(o, r, k + 1) == From(o, r, k) + 2 * |r.splits[k].inputs| + r.splits[k].end - r.splits[k].start
  {
    assert SplitRunnable(o, r, r.splits[k]);
  }

  /** A spot is inside its split. */
  lemma SpotInside(o: OpGraph, r: SplitPlan, s: Spot)
    requires Runnable(o, r) && IsSpot(o, r, s)
    ensures From(o, r, s.k) <= PlaceOf(o, r, s) < From(o, r, s.k + 1) <= |CopyGraph(o, r, |r.splits|)|
  {
    NextFrom(o, r, s.k);
    FromGrows(o, r, s.k + 1, |r.splits|);
  }

  lemma SpotIsThere(o: OpGraph, r: SplitPlan, s: Spot)
    requires Runnable(o, r) && IsSpot(o, r, s)
    ensures PlaceOf(o, r, s) < |CopyGraph(o, r, |r.splits|)|
    ensures CopyGraph(o, r, |r.splits|)[PlaceOf(o, r, s)] == EntryOf(o, r, s)
  {
    if s.OwnSpot? { var i := OwnIsAt(o, r, s.k, s.p); } else { var i := InputIsAt(o, r, s.k, s.x); }
  }

  /** Every place is one of these. */
  lemma {:induction false} SpotAt(o: OpGraph, r: SplitPlan, n: nat, i: nat) returns (s: Spot)
    requires Runnable(o, r) && n <= |r.splits| && i < |CopyGraph(o, r, n)|
    ensures IsSpot(o, r, s) && s.k < n && PlaceOf(o, r, s) == i
  {
    var k := n - 1;
    var before, split := |CopyGraph(o, r, k)|, r.splits[k];
    assert SplitRunnable(o, r, split);
    if i < before {
      s := SpotAt(o, r, k, i);
    } else if i < before + 2 * |split.inputs| {
      var x := (i - before) / 2;
      s := if (i - before) % 2 == 0 then KeepSpot(k, x) else MadeSpot(k, x);
    } else {
      s := OwnSpot(k, split.start + (i - before - 2 * |split.inputs|));
    }
  }

  /** Places go up with the splits. */
  lemma LaterSplitLater(o: OpGraph, r: SplitPlan, s: Spot, u: Spot)
    requires Runnable(o, r) && IsSpot(o, r, s) && IsSpot(o, r, u) && s.k < u.k
    ensures PlaceOf(o, r, s) < PlaceOf(o, r, u)
  {
    assert PlaceOf(o, r, s) < From(o, r, s.k + 1) by { SpotInside(o, r, s); }
    assert From(o, r, u.k) <= PlaceOf(o, r, u) by { SpotInside(o, r, u); }
    FromGrows(o, r, s.k + 1, u.k);
  }

  /** Nodes go up with their places, and back. */
  lemma OwnOrder(o: OpGraph, ids: seq<int>, r: SplitPlan, s: Spot, u: Spot)
    requires Runnable(o, r) && Chained(o, ids, r.splits, |o.nodes|) && s.OwnSpot? && u.OwnSpot?
    requires IsSpot(o, r, s) && IsSpot(o, r, u)
    ensures PlaceOf(o, r, s) < PlaceOf(o, r, u) <==> s.p < u.p
  {
    if s.k < u.k {
      LaterSplitLater(o, r, s, u);
      EarlierSplit(o, ids, r, s.k, s.p, u.k, u.p);
    } else if u.k < s.k {
      LaterSplitLater(o, r, u, s);
      EarlierSplit(o, ids, r, u.k, u.p, s.k, s.p);
    }
  }

  /** A node comes before the inputs of a split exactly if it comes before its first node. */
  lemma OwnBeforeInputs(o: OpGraph, ids: seq<int>, r: SplitPlan, s: Spot, u: Spot)
    requires Runnable(o, r) && Chained(o, ids, r.splits, |o.nodes|) && s.OwnSpot? && !u.OwnSpot?
    requires IsSpot(o, r, s) && IsSpot(o, r, u)
    ensures PlaceOf(o, r, s) < PlaceOf(o, r, u) <==> s.p < r.splits[u.k].start
  {
    if s.k < u.k {
      LaterSplitLater(o, r, s, u);
      EndsGrow(o, ids, r, s.k + 1, u.k);
      assert EndOf(r, u.k) == r.splits[u.k].start;
    } else if u.k < s.k {
      LaterSplitLater(o, r, u, s);
      EndsGrow(o, ids, r, u.k + 1, s.k);
      assert EndOf(r, s.k) == r.splits[s.k].start;
    }
  }

  lemma OwnSpotOf(o: OpGraph, ids: seq<int>, r: SplitPlan, p: nat) returns (s: Spot)
    requires Runnable(o, r) && Chained(o, ids, r.splits, |o.nodes|) && p < |o.nodes|
    ensures s.OwnSpot? && s.p == p && IsSpot(o, r, s)
  {
    var k := SplitOf(o, ids, r.splits, 0, p);
    s := OwnSpot(k, p);
  }

  lemma KeepTensorAt(o: OpGraph, r: SplitPlan, facts: seq<Facts>, u: Spot)
    requires Numbered(o, r, facts) && IsSpot(o, r, u) && u.KeepSpot?
    ensures PlaceOf(o, r, u) < |CopyGraph(o, r, |r.splits|)| && r.splits[u.k].inputs[u.x] < |o.tensors|
    ensures var t := r.splits[u.k].inputs[u.x];
            TensorAt(o, r, facts, |facts| + PlaceOf(o, r, u)) == KeepOf(o, t, facts[t])
  {
    SpotIsThere(o, r, u);
    assert SplitRunnable(o, r, r.splits[u.k]);
  }

  lemma PlainTensorAt(o: OpGraph, r: SplitPlan, facts: seq<Facts>, t: nat)
    requires Numbered(o, r, facts) && t < |facts|
    ensures TensorAt(o, r, facts, t).src == if t < |o.tensors| then r.src[t] else []
  {
  }

  // ---- the graph before and after

  /** The graph `q` before it is split and the graph copy `p` after it. */
  datatype Copying = Copying(o: OpGraph, e: Backends, ids: seq<int>, r: SplitPlan, facts: seq<Facts>, q: G.Graph,
                             p: G.Graph)
  {
    ghost predicate Valid() {
      Pictured() && Wired(o, e, ids, r, facts)
    }

    ghost predicate Pictured() {
      && Numbered(o, r, facts)
      && |q.tensors| == |o.tensors| && q.nodes == o.nodes && q.leafs == o.leafs && p.leafs == o.leafs
      && (forall t :: 0 <= t < |o.tensors| ==> q.tensors[t] == TensorOf(o.tensors[t], o.tensors[t].src, facts[t]))
      && |p.tensors| == |facts| + |CopyGraph(o, r, |r.splits|)| && |p.nodes| == |CopyGraph(o, r, |r.splits|)|
      && (forall t :: 0 <= t < |p.tensors| ==> p.tensors[t] == TensorAt(o, r, facts, t))
      && (forall i :: 0 <= i < |p.nodes| ==> p.nodes[i] == NumberOf(CopyGraph(o, r, |r.splits|)[i], i, facts))
    }
  }

  /** The splits follow each other, their nodes are rewired, and copies have numbers below `|facts|`. */
  ghost predicate Wired(o: OpGraph, e: Backends, ids: seq<int>, r: SplitPlan, facts: seq<Facts>) {
    && Chained(o, ids, r.splits, |o.nodes|) && Untouched(o, r.src, |o.nodes|)
    && NodesDone(o, e, ids, r.splits, r.src, r.copies, |o.nodes|, |o.nodes|)
    && CopiesOk(o, e, ids, r.splits, r.copies, |facts|)
  }

  /** What the node at a spot reads. */
  ghost function Reads(c: Copying, u: Spot): seq<nat>
    requires Runnable(c.o, c.r) && IsSpot(c.o, c.r, u)
  {
    match u
    case KeepSpot(k, x) => [c.r.splits[k].inputs[x]]
    case MadeSpot(_, _) => []
    case OwnSpot(_, p) => c.r.src[c.o.nodes[p]]
  }

  /** A copy has a number of its own. */
  lemma CopyNumber(c: Copying, u: Spot)
    requires c.Valid() && IsSpot(c.o, c.r, u) && u.MadeSpot?
    ensures EntryOf(c.o, c.r, u).Made? && |c.o.tensors| <= EntryOf(c.o, c.r, u).c < |c.facts|
  {
    assert SplitRunnable(c.o, c.r, c.r.splits[u.k]);
  }

  lemma NumberAt(c: Copying, u: Spot) returns (i: nat)
    requires c.Valid() && IsSpot(c.o, c.r, u)
    ensures i == PlaceOf(c.o, c.r, u) < |c.p.nodes| && c.p.nodes[i] == NumberOf(EntryOf(c.o, c.r, u), i, c.facts)
    ensures c.p.nodes[i] < |c.o.tensors| <==> u.OwnSpot?
    ensures u.KeepSpot? ==> c.p.nodes[i] == |c.facts| + i
  {
    i := PlaceOf(c.o, c.r, u);
    SpotIsThere(c.o, c.r, u);
    NumberOfSpot(c, u, i);
  }

  lemma NumberOfSpot(c: Copying, u: Spot, i: nat)
    requires c.Valid() && IsSpot(c.o, c.r, u)
    ensures NumberOf(EntryOf(c.o, c.r, u), i, c.facts) < |c.o.tensors| <==> u.OwnSpot?
    ensures u.KeepSpot? ==> NumberOf(EntryOf(c.o, c.r, u), i, c.facts) == |c.facts| + i
  {
    if u.MadeSpot? { CopyNumber(c, u); }
  }

  /** Where node `m` of the graph is. */
  lemma OwnAt(c: Copying, m: nat) returns (s: Spot)
    requires c.Valid() && m < |c.o.nodes|
    ensures s.OwnSpot? && s.p == m && IsSpot(c.o, c.r, s)
    ensures PlaceOf(c.o, c.r, s) < |c.p.nodes| && c.p.nodes[PlaceOf(c.o, c.r, s)] == c.q.nodes[m]
  {
    s := OwnSpotOf(c.o, c.ids, c.r, m);
    var i := NumberAt(c, s);
  }

  lemma NodeAt(c: Copying, u: Spot) returns (i: nat)
    requires c.Valid() && IsSpot(c.o, c.r, u)
    ensures i == PlaceOf(c.o, c.r, u) < |c.p.nodes| && c.p.nodes[i] == NumberOf(EntryOf(c.o, c.r, u), i, c.facts)
    ensures c.p.nodes[i] < |c.o.tensors| <==> u.OwnSpot?
    ensures G.Src(c.p, i) == Reads(c, u)
  {
    i := NumberAt(c, u);
    if u.KeepSpot? { KeepReads(c, u, i); } else { OthersRead(c, u, i); }
  }

  lemma KeepReads(c: Copying, u: Spot, i: nat)
    requires c.Pictured() && IsSpot(c.o, c.r, u) && u.KeepSpot? && i == PlaceOf(c.o, c.r, u) < |c.p.nodes|
    requires c.p.nodes[i] == |c.facts| + i
    ensures G.Src(c.p, i) == Reads(c, u) && c.p.tensors[c.p.nodes[i]].isNone
  {
    KeepTensorAt(c.o, c.r, c.facts, u);
    var t := c.r.splits[u.k].inputs[u.x];
    var x := c.p.tensors[|c.facts| + i];
    assert x == TensorAt(c.o, c.r, c.facts, |c.facts| + i) == KeepOf(c.o, t, c.facts[t]);
  }

  lemma OthersRead(c: Copying, u: Spot, i: nat)
    requires c.Valid() && IsSpot(c.o, c.r, u) && !u.KeepSpot? && i == PlaceOf(c.o, c.r, u) < |c.p.nodes|
    requires c.p.nodes[i] == NumberOf(EntryOf(c.o, c.r, u), i, c.facts)
    ensures G.Src(c.p, i) == Reads(c, u)
  {
    if u.MadeSpot? { CopyNumber(c, u); }
    PlainTensorAt(c.o, c.r, c.facts, c.p.nodes[i]);
    assert c.p.tensors[c.p.nodes[i]] == TensorAt(c.o, c.r, c.facts, c.p.nodes[i]);
  }

  /** Every node of the copied graph is at a spot. */
  lemma SpotOf(c: Copying, i: nat) returns (u: Spot)
    requires c.Valid() && i < |c.p.nodes|
    ensures IsSpot(c.o, c.r, u) && PlaceOf(c.o, c.r, u) == i
    ensures c.p.nodes[i] == NumberOf(EntryOf(c.o, c.r, u), i, c.facts)
    ensures c.p.nodes[i] < |c.o.tensors| <==> u.OwnSpot?
    ensures G.Src(c.p, i) == Reads(c, u)
  {
    u := SpotAt(c.o, c.r, |c.r.splits|, i);
    var m := NodeAt(c, u);
  }

  /** Node `i` of the copied graph, if it is one of the graph. */
  lemma OwnSpotAt(c: Copying, i: nat) returns (s: Spot)
    requires c.Valid() && i < |c.p.nodes| && c.p.nodes[i] < |c.o.tensors|
    ensures IsSpot(c.o, c.r, s) && PlaceOf(c.o, c.r, s) == i && s.OwnSpot? && c.q.nodes[s.p] == c.p.nodes[i]
  {
    s := SpotOf(c, i);
  }

  // ---- the order of the nodes

  /** The first node of the graph that is not before the spot. */
  function FirstAfter(c: Copying, u: Spot): nat
    requires IsSpot(c.o, c.r, u)
  {
    if u.OwnSpot? then u.p else c.r.splits[u.k].start
  }

  lemma OwnBefore(c: Copying, s: Spot, u: Spot)
    requires c.Valid() && IsSpot(c.o, c.r, s) && IsSpot(c.o, c.r, u) && s.OwnSpot?
    ensures PlaceOf(c.o, c.r, s) < PlaceOf(c.o, c.r, u) <==> s.p < FirstAfter(c, u)
  {
    if u.OwnSpot? { OwnOrder(c.o, c.ids, c.r, s, u); } else { OwnBeforeInputs(c.o, c.ids, c.r, s, u); }
  }

  lemma BeforeInCopy(c: Copying, u: Spot, t: nat)
    requires c.Valid() && IsSpot(c.o, c.r, u) && t < |c.o.tensors| && G.NodeBefore(c.p, t, PlaceOf(c.o, c.r, u))
    ensures G.NodeBefore(c.q, t, FirstAfter(c, u))
  {
    var m :| 0 <= m < PlaceOf(c.o, c.r, u) && m < |c.p.nodes| && c.p.nodes[m] == t;
    var s := OwnSpotAt(c, m);
    OwnBefore(c, s, u);
    assert c.q.nodes[s.p] == t;
  }

  lemma BeforeInGraph(c: Copying, u: Spot, t: nat)
    requires c.Valid() && IsSpot(c.o, c.r, u) && t < |c.o.tensors| && G.NodeBefore(c.q, t, FirstAfter(c, u))
    ensures G.NodeBefore(c.p, t, PlaceOf(c.o, c.r, u))
  {
    var m :| 0 <= m < FirstAfter(c, u) && m < |c.q.nodes| && c.q.nodes[m] == t;
    var s := OwnAt(c, m);
    OwnBefore(c, s, u);
    assert c.p.nodes[PlaceOf(c.o, c.r, s)] == t;
  }

  // ---- nodes and slots

  /** Different copies have different numbers. */
  lemma CopiesDiffer(c: Copying, s: Spot, u: Spot)
    requires c.Valid() && IsSpot(c.o, c.r, s) && IsSpot(c.o, c.r, u) && s.MadeSpot? && u.MadeSpot?
    requires EntryOf(c.o, c.r, s) == EntryOf(c.o, c.r, u)
    ensures s == u
  {
    var a, b := c.r.splits[s.k], c.r.splits[u.k];
    assert SplitRunnable(c.o, c.r, a) && SplitRunnable(c.o, c.r, b);
    assert (a.inputs[s.x], a.backend) == (b.inputs[u.x], b.backend);
  }

  lemma NodesDiffer(c: Copying, i: nat, m: nat)
    requires c.Valid() && Distinct(c.o) && i < m < |c.p.nodes|
    ensures c.p.nodes[i] != c.p.nodes[m]
  {
    var s := SpotOf(c, i);
    var u := SpotOf(c, m);
    if s.MadeSpot? { CopyNumber(c, s); }
    if u.MadeSpot? { CopyNumber(c, u); }
    if s.OwnSpot? && u.OwnSpot? {
      OwnOrder(c.o, c.ids, c.r, s, u);
    } else if s.MadeSpot? && u.MadeSpot? && EntryOf(c.o, c.r, s) == EntryOf(c.o, c.r, u) {
      CopiesDiffer(c, s, u);
    }
  }

  /** Source `j` of node `u.p` is what it was, or the copy made at spot `s`. */
  ghost predicate Replaced(c: Copying, u: Spot, j: nat, s: Spot)
    requires Runnable(c.o, c.r) && IsSpot(c.o, c.r, u) && u.OwnSpot? && |Reads(c, u)| == |Src(c.o, u.p)|
    requires j < |Src(c.o, u.p)|
  {
    && IsSpot(c.o, c.r, s) && s.MadeSpot? && s.k <= u.k && c.r.splits[s.k].inputs[s.x] == Src(c.o, u.p)[j]
    && EntryOf(c.o, c.r, s) == Made(Reads(c, u)[j])
  }

  lemma SameSlots(c: Copying, u: Spot)
    requires c.Valid() && IsSpot(c.o, c.r, u) && u.OwnSpot?
    ensures |Reads(c, u)| == |Src(c.o, u.p)|
  {
    if Computing(c.o, c.o.nodes[u.p]) {
      assert SplitDone(c.o, c.e, c.ids, c.r.src, c.r.copies, c.r.splits[u.k], |c.o.nodes|);
    }
  }

  lemma OwnSource(c: Copying, u: Spot, j: nat) returns (s: Spot)
    requires c.Valid() && IsSpot(c.o, c.r, u) && u.OwnSpot? && j < |Src(c.o, u.p)|
    ensures |Reads(c, u)| == |Src(c.o, u.p)|
    ensures Reads(c, u)[j] == Src(c.o, u.p)[j] || Replaced(c, u, j, s)
  {
    s := u;
    SameSlots(c, u);
    var split, t := c.r.splits[u.k], Src(c.o, u.p)[j];
    if Computing(c.o, c.o.nodes[u.p]) {
      assert SplitDone(c.o, c.e, c.ids, c.r.src, c.r.copies, split, |c.o.nodes|);
      assert SlotDone(c.o, c.e, c.ids, c.r.copies, t, Reads(c, u)[j], split.backend);
      if NeedsCopy(c.o, c.e, c.ids, t, split.backend) {
        assert MadeInTime(c.o, c.e, c.ids, c.r.splits, u.k, u.p);
        s := WhereMade(c, t, split.backend, u.k);
      }
    }
  }

  /** The copy of `t` for backend `b` is made in one of the splits up to `k`. */
  lemma WhereMade(c: Copying, t: nat, b: nat, k: nat) returns (s: Spot)
    requires c.Valid() && MadeBy(c.r.splits, t, b, k + 1) && (t, b) in c.r.copies
    ensures IsSpot(c.o, c.r, s) && s.MadeSpot? && s.k <= k && c.r.splits[s.k].inputs[s.x] == t
    ensures EntryOf(c.o, c.r, s) == Made(c.r.copies[(t, b)])
  {
    var l :| 0 <= l < k + 1 && l < |c.r.splits| && c.r.splits[l].backend == b && t in c.r.splits[l].inputs;
    var x :| 0 <= x < |c.r.splits[l].inputs| && c.r.splits[l].inputs[x] == t;
    s := MadeSpot(l, x);
  }

  /** What is read in the copied graph is read in the graph. */
  lemma ReadInGraph(c: Copying, t: nat)
    requires c.Valid() && t < |c.o.tensors| && G.Slots(c.p, t) > 0
    ensures G.Slots(c.q, t) > 0
  {
    var i, j := G.SlotWitness(c.p, t, 0, 0);
    var u := SpotOf(c, i);
    if u.OwnSpot? {
      SameSlots(c, u);
      var s := OwnSource(c, u, j);
      if Reads(c, u)[j] != Src(c.o, u.p)[j] { CopyNumber(c, s); }
      G.LeftPositive(c.q, t, 0, 0, u.p, j);
    } else {
      InputIsRead(c, u);
    }
  }

  lemma InputIsRead(c: Copying, u: Spot)
    requires c.Valid() && IsSpot(c.o, c.r, u) && u.KeepSpot?
    ensures G.Slots(c.q, c.r.splits[u.k].inputs[u.x]) > 0
  {
    var m, j := Reader(c, u.k, u.x);
    G.LeftPositive(c.q, c.r.splits[u.k].inputs[u.x], 0, 0, m, j);
  }

  /** A node of the split that reads the input. */
  lemma Reader(c: Copying, k: nat, x: nat) returns (m: nat, j: nat)
    requires c.Valid() && k < |c.r.splits| && x < |c.r.splits[k].inputs|
    ensures c.r.splits[k].start <= m < c.r.splits[k].end && m < |c.o.nodes| && Computing(c.o, c.o.nodes[m])
    ensures j < |Src(c.o, m)| && Src(c.o, m)[j] == c.r.splits[k].inputs[x] && G.Src(c.q, m) == Src(c.o, m)
  {
    assert Wanted(c.o, c.r.splits[k], c.r.splits[k].inputs[x]) by {
      assert InputOk(c.o, c.e, c.ids, c.r.splits[k], c.r.copies, x);
    }
    m, j :| c.r.splits[k].start <= m < c.r.splits[k].end && m < |c.o.nodes| && Computing(c.o, c.o.nodes[m])
      && 0 <= j < |Src(c.o, m)| && Src(c.o, m)[j] == c.r.splits[k].inputs[x];
  }

  /** And the other way round: a source that was replaced is read by the view that keeps it alive. */
  lemma ReadInCopy(c: Copying, t: nat)
    requires c.Valid() && t < |c.o.tensors| && G.Slots(c.q, t) > 0
    ensures G.Slots(c.p, t) > 0
  {
    var m, j := G.SlotWitness(c.q, t, 0, 0);
    var u := OwnSpotOf(c.o, c.ids, c.r, m);
    var s := OwnSource(c, u, j);
    if Reads(c, u)[j] == t {
      var i := NodeAt(c, u);
      G.LeftPositive(c.p, t, 0, 0, i, j);
    } else {
      var i := NodeAt(c, KeepSpot(s.k, s.x));
      G.LeftPositive(c.p, t, 0, 0, i, 0);
    }
  }

  // ---- what the planner asks of sources

  lemma SameNodes(c: Copying, t: nat)
    requires c.Valid() && t < |c.o.tensors|
    ensures t in c.p.nodes <==> t in c.q.nodes
  {
    if t in c.p.nodes {
      var i :| 0 <= i < |c.p.nodes| && c.p.nodes[i] == t;
      var s := OwnSpotAt(c, i);
      assert c.q.nodes[s.p] == t;
    }
    if t in c.q.nodes {
      var m :| 0 <= m < |c.q.nodes| && c.q.nodes[m] == t;
      var s := OwnAt(c, m);
      assert c.p.nodes[PlaceOf(c.o, c.r, s)] == t;
    }
  }

  lemma SameInitial(c: Copying, t: nat)
    requires c.Valid() && t < |c.o.tensors|
    ensures G.Initial(c.p, t) <==> G.Initial(c.q, t)
  {
    SameNodes(c, t);
    if G.Slots(c.p, t) > 0 { ReadInGraph(c, t); }
    if G.Slots(c.q, t) > 0 { ReadInCopy(c, t); }
    SameTensor(c, t);
  }

  lemma SameTensor(c: Copying, t: nat)
    requires c.Valid() && t < |c.o.tensors|
    ensures c.p.tensors[t] == c.q.tensors[t].(src := c.r.src[t])
  {
  }

  /** A tensor of the graph is as good a source at a spot of the copied graph as it was in the graph. */
  lemma SameSource(c: Copying, u: Spot, t: nat)
    requires c.Valid() && IsSpot(c.o, c.r, u) && t < |c.o.tensors|
    ensures G.Ready(c.p, t, PlaceOf(c.o, c.r, u)) <==> G.Ready(c.q, t, FirstAfter(c, u))
    ensures G.SourceWellFormed(c.p, t, PlaceOf(c.o, c.r, u)) <==> G.SourceWellFormed(c.q, t, FirstAfter(c, u))
  {
    var i, n := PlaceOf(c.o, c.r, u), FirstAfter(c, u);
    if G.NodeBefore(c.p, t, i) { BeforeInCopy(c, u, t); }
    if G.NodeBefore(c.q, t, n) { BeforeInGraph(c, u, t); }
    SameInitial(c, t);
    SameNodes(c, t);
    SameTensor(c, t);
    SameTensor(c, Root(c.o, t));
  }

  /** A copy is there for the nodes of its split and of later ones. */
  lemma CopyIsReady(c: Copying, s: Spot, u: Spot)
    requires c.Valid() && IsSpot(c.o, c.r, s) && IsSpot(c.o, c.r, u) && s.MadeSpot? && u.OwnSpot? && s.k <= u.k
    ensures EntryOf(c.o, c.r, s).Made? && EntryOf(c.o, c.r, s).c < |c.p.tensors|
    ensures G.SourceWellFormed(c.p, EntryOf(c.o, c.r, s).c, PlaceOf(c.o, c.r, u))
  {
    var i := NodeAt(c, s);
    CopyNumber(c, s);
    if s.k < u.k { LaterSplitLater(c.o, c.r, s, u); }
    var t := EntryOf(c.o, c.r, s).c;
    assert c.p.nodes[i] == t && c.p.tensors[t] == CopyOf(c.facts[t]);
    assert G.NodeBefore(c.p, t, PlaceOf(c.o, c.r, u));
  }

  /** Own nodes stay well-formed. */
  lemma OwnStaysWellFormed(c: Copying, u: Spot)
    requires c.Valid() && IsSpot(c.o, c.r, u) && u.OwnSpot? && G.NodeWellFormed(c.q, u.p)
    requires PlaceOf(c.o, c.r, u) < |c.p.nodes|
    ensures G.NodeWellFormed(c.p, PlaceOf(c.o, c.r, u))
  {
    var i := NodeAt(c, u);
    SameSlots(c, u);
    forall j | 0 <= j < |G.Src(c.p, i)| ensures G.SourceWellFormed(c.p, G.Src(c.p, i)[j], i) {
      var s := OwnSource(c, u, j);
      if Reads(c, u)[j] == Src(c.o, u.p)[j] {
        SameSource(c, u, Src(c.o, u.p)[j]);
        assert G.SourceWellFormed(c.q, G.Src(c.q, u.p)[j], u.p);
      } else {
        CopyIsReady(c, s, u);
      }
    }
    SameSource(c, u, Root(c.o, c.o.nodes[u.p]));
    SameTensor(c, c.o.nodes[u.p]);
  }

  // ---- the copied graph

  /** Input `x` of split `k` could be read by the first node of the split. */
  ghost predicate InputInTime(q: G.Graph, r: SplitPlan, k: nat, x: nat)
    requires k < |r.splits| && x < |r.splits[k].inputs|
  {
    r.splits[k].inputs[x] < |q.tensors| && G.SourceWellFormed(q, r.splits[k].inputs[x], r.splits[k].start)
  }

  ghost predicate InputsInTime(q: G.Graph, r: SplitPlan) {
    forall k, x :: 0 <= k < |r.splits| && 0 <= x < |r.splits[k].inputs| ==> InputInTime(q, r, k, x)
  }

  lemma KeepWellFormed(c: Copying, u: Spot)
    requires c.Valid() && IsSpot(c.o, c.r, u) && u.KeepSpot? && PlaceOf(c.o, c.r, u) < |c.p.nodes|
    ensures G.NodeWellFormed(c.p, PlaceOf(c.o, c.r, u)) <==> InputInTime(c.q, c.r, u.k, u.x)
  {
    var t := c.r.splits[u.k].inputs[u.x];
    var i := NodeAt(c, u);
    assert SplitRunnable(c.o, c.r, c.r.splits[u.k]);
    KeepIsView(c, u);
    SameSource(c, u, t);
    assert G.Src(c.p, i) == [t] && G.Src(c.p, i)[0] == t;
  }

  lemma KeepIsView(c: Copying, u: Spot)
    requires c.Valid() && IsSpot(c.o, c.r, u) && u.KeepSpot?
    ensures var i := PlaceOf(c.o, c.r, u); i < |c.p.nodes| && c.p.tensors[c.p.nodes[i]].isNone
  {
    var i := NumberAt(c, u);
    KeepReads(c, u, i);
  }

  ghost predicate TensorWellFormed(p: G.Graph, t: nat)
    requires t < |p.tensors|
  {
    && t !in p.tensors[t].src && (G.IsView(p, t) ==> !G.IsView(p, G.Root(p, t)))
    && (p.tensors[t].input || t in p.leafs ==> p.tensors[t].isNone)
    && (p.tensors[t].isNone ==> !p.tensors[t].canInplace)
  }

  lemma TensorStaysWellFormed(c: Copying, t: nat)
    requires c.Valid() && t < |c.o.tensors| && TensorWellFormed(c.q, t)
    ensures TensorWellFormed(c.p, t)
  {
    SameTensor(c, t);
    SameTensor(c, Root(c.o, t));
    NoLoop(c, t);
  }

  lemma NewTensorWellFormed(c: Copying, t: nat)
    requires c.Valid() && |c.o.tensors| <= t < |c.p.tensors|
    requires forall u :: 0 <= u < |c.q.tensors| ==> TensorWellFormed(c.q, u)
    ensures TensorWellFormed(c.p, t)
  {
    if t >= |c.facts| && CopyGraph(c.o, c.r, |c.r.splits|)[t - |c.facts|].Keep? {
      var v := CopyGraph(c.o, c.r, |c.r.splits|)[t - |c.facts|].t;
      EntriesInRange(c.o, c.r, c.facts, |c.r.splits|);
      assert EntryInRange(c.o, c.facts, CopyGraph(c.o, c.r, |c.r.splits|)[t - |c.facts|]);
      KeepTensorWellFormed(c, t, v);
    }
  }

  lemma KeepTensorWellFormed(c: Copying, t: nat, v: nat)
    requires c.Valid() && |c.facts| <= t < |c.p.tensors| && v < |c.o.tensors| && TensorWellFormed(c.q, v)
    requires c.p.tensors[t] == KeepOf(c.o, v, c.facts[v])
    ensures TensorWellFormed(c.p, t)
  {
    SameTensor(c, Root(c.o, v));
    assert Root(c.o, v) == G.Root(c.q, v);
    assert forall l :: 0 <= l < |c.o.leafs| ==> c.o.leafs[l] < |c.o.tensors|;
  }

  lemma NoLoop(c: Copying, t: nat)
    requires c.Valid() && t < |c.o.tensors| && t !in c.o.tensors[t].src
    ensures t !in c.r.src[t]
  {
    if t in c.o.nodes {
      var m :| 0 <= m < |c.o.nodes| && c.o.nodes[m] == t;
      var u := OwnSpotOf(c.o, c.ids, c.r, m);
      SameSlots(c, u);
      forall j | 0 <= j < |c.r.src[t]| ensures c.r.src[t][j] != t {
        var s := OwnSource(c, u, j);
        if Reads(c, u)[j] != Src(c.o, m)[j] { CopyNumber(c, s); }
      }
    } else {
      assert c.r.src[t] == c.o.tensors[t].src;
    }
  }

  lemma NodeInTime(c: Copying, i: nat)
    requires c.Valid() && G.WellFormed(c.q) && InputsInTime(c.q, c.r) && i < |c.p.nodes|
    ensures G.NodeWellFormed(c.p, i)
  {
    var u := SpotOf(c, i);
    match u
    case OwnSpot(_, m) =>
      assert G.NodeWellFormed(c.q, m);
      OwnStaysWellFormed(c, u);
    case KeepSpot(k, x) =>
      assert InputInTime(c.q, c.r, k, x);
      KeepWellFormed(c, u);
    case MadeSpot(_, _) => CopyNumber(c, u);
  }

  /** The tensors and the order of the nodes are as the planner wants them in any case. */
  lemma TensorsWellFormed(c: Copying)
    requires c.Valid() && G.WellFormed(c.q)
    ensures forall i, m :: 0 <= i < m < |c.p.nodes| ==> c.p.nodes[i] != c.p.nodes[m]
    ensures forall t :: 0 <= t < |c.p.tensors| ==> TensorWellFormed(c.p, t)
  {
    assert Distinct(c.o);
    forall i, m | 0 <= i < m < |c.p.nodes| ensures c.p.nodes[i] != c.p.nodes[m] { NodesDiffer(c, i, m); }
    forall t | 0 <= t < |c.q.tensors| ensures TensorWellFormed(c.q, t) {}
    forall t | 0 <= t < |c.p.tensors| ensures TensorWellFormed(c.p, t) {
      if t < |c.o.tensors| { TensorStaysWellFormed(c, t); } else { NewTensorWellFormed(c, t); }
    }
  }

  lemma MakeWellFormed(p: G.Graph)
    requires forall i, m :: 0 <= i < m < |p.nodes| ==> p.nodes[i] != p.nodes[m]
    requires forall t :: 0 <= t < |p.tensors| ==> TensorWellFormed(p, t)
    requires forall i :: 0 <= i < |p.nodes| ==> G.NodeWellFormed(p, i)
    ensures G.WellFormed(p)
  {
    forall t | 0 <= t < |p.tensors|
      ensures t !in p.tensors[t].src && (G.IsView(p, t) ==> !G.IsView(p, G.Root(p, t)))
      ensures p.tensors[t].input || t in p.leafs ==> p.tensors[t].isNone
      ensures p.tensors[t].isNone ==> !p.tensors[t].canInplace
    {
      assert TensorWellFormed(p, t);
    }
  }

  lemma WellFormedInTime(c: Copying)
    requires c.Valid() && G.WellFormed(c.q)
    ensures G.WellFormed(c.p) <==> InputsInTime(c.q, c.r)
  {
    TensorsWellFormed(c);
    if InputsInTime(c.q, c.r) {
      forall i | 0 <= i < |c.p.nodes| ensures G.NodeWellFormed(c.p, i) { NodeInTime(c, i); }
      MakeWellFormed(c.p);
    }
    if G.WellFormed(c.p) {
      forall k, x | 0 <= k < |c.r.splits| && 0 <= x < |c.r.splits[k].inputs| ensures InputInTime(c.q, c.r, k, x) {
        var i := NodeAt(c, KeepSpot(k, x));
        KeepWellFormed(c, KeepSpot(k, x));
      }
    }
  }

  lemma LeafsStayApart(c: Copying)
    requires c.Valid() && ExactPlans.LeafsApart(c.q)
    ensures ExactPlans.LeafsApart(c.p)
  {
    forall i | 0 <= i < |c.p.nodes| ensures c.p.nodes[i] !in c.p.leafs {
      var u := SpotOf(c, i);
      if u.OwnSpot? { assert c.q.nodes[u.p] !in c.q.leafs; }
    }
  }

  // ---- what the pass hands to the planner

  /** The pass's promises, with room for the copies' numbers. */
  ghost predicate Promised(o: OpGraph, e: Backends, ids: seq<int>, r: SplitPlan, facts: seq<Facts>) {
    && WellSplit(o, e, ids, r) && Numbered(o, r, facts) && CopiesOk(o, e, ids, r.splits, r.copies, |facts|)
  }

  /** The graph copy is a graph that the planner can be used for, if the graph was one before the pass,
      exactly if whatever a split copies could be read by its first node; and if no node was a leaf, none
      is. */
  lemma CopiedIsWellFormed(o: OpGraph, e: Backends, ids: seq<int>, r: SplitPlan, facts: seq<Facts>)
    requires Promised(o, e, ids, r, facts) && G.WellFormed(Unsplit(o, facts))
    ensures G.WellFormed(Copied(o, r, facts)) <==> InputsInTime(Unsplit(o, facts), r)
    ensures ExactPlans.LeafsApart(Unsplit(o, facts)) ==> ExactPlans.LeafsApart(Copied(o, r, facts))
  {
    var c := CopyingOf(o, e, ids, r, facts);
    WellFormedInTime(c);
    if ExactPlans.LeafsApart(c.q) { LeafsStayApart(c); }
  }

  /** A copied view, or the memory behind it, is there before the split starts. */
  ghost predicate ViewsInTime(q: G.Graph, r: SplitPlan) {
    forall k, x :: 0 <= k < |r.splits| && 0 <= x < |r.splits[k].inputs| && InputIsView(q, r, k, x) ==>
      InputInTime(q, r, k, x)
  }

  predicate InputIsView(q: G.Graph, r: SplitPlan, k: nat, x: nat)
    requires k < |r.splits| && x < |r.splits[k].inputs|
  {
    r.splits[k].inputs[x] < |q.tensors| && G.IsView(q, r.splits[k].inputs[x])
  }

  /** If moreover no copy goes stale, this is a matter of the copied views alone. */
  lemma FreshCopiesAreInTime(o: OpGraph, e: Backends, ids: seq<int>, r: SplitPlan, facts: seq<Facts>)
    requires Promised(o, e, ids, r, facts) && G.WellFormed(Unsplit(o, facts)) && SingleAssignment(o)
    requires CopiesStayFresh(o, e, ids)
    requires forall t :: 0 <= t < |o.tensors| && o.tensors[t].viewOp ==> o.tensors[t].viewSrc.Some?
    ensures G.WellFormed(Copied(o, r, facts)) <==> ViewsInTime(Unsplit(o, facts), r)
  {
    FreshOnBothSides(o, e, ids, r);
    var c := CopyingOf(o, e, ids, r, facts);
    WellFormedInTime(c);
    FreshInputsInTime(c);
  }

  lemma CopyingOf(o: OpGraph, e: Backends, ids: seq<int>, r: SplitPlan, facts: seq<Facts>) returns (c: Copying)
    requires Promised(o, e, ids, r, facts)
    ensures c == Copying(o, e, ids, r, facts, Unsplit(o, facts), Copied(o, r, facts)) && c.Valid()
  {
    c := Copying(o, e, ids, r, facts, Unsplit(o, facts), Copied(o, r, facts));
  }

  lemma FreshInputsInTime(c: Copying)
    requires c.Valid() && G.WellFormed(c.q) && NoStaleCopy(c.o, c.r)
    requires forall t :: 0 <= t < |c.o.tensors| && c.o.tensors[t].viewOp ==> c.o.tensors[t].viewSrc.Some?
    ensures InputsInTime(c.q, c.r) <==> ViewsInTime(c.q, c.r)
  {
    forall k, x | 0 <= k < |c.r.splits| && 0 <= x < |c.r.splits[k].inputs| && !InputIsView(c.q, c.r, k, x)
      ensures InputInTime(c.q, c.r, k, x)
    {
      FreshInputInTime(c, k, x);
    }
  }

  lemma FreshInputInTime(c: Copying, k: nat, x: nat)
    requires c.Valid() && G.WellFormed(c.q) && NoStaleCopy(c.o, c.r)
    requires forall t :: 0 <= t < |c.o.tensors| && c.o.tensors[t].viewOp ==> c.o.tensors[t].viewSrc.Some?
    requires k < |c.r.splits| && x < |c.r.splits[k].inputs| && !InputIsView(c.q, c.r, k, x)
    ensures InputInTime(c.q, c.r, k, x)
  {
    var s, t := c.r.splits[k], c.r.splits[k].inputs[x];
    var m, j := Reader(c, k, x);
    assert G.NodeWellFormed(c.q, m) && G.SourceWellFormed(c.q, G.Src(c.q, m)[j], m);
    assert Settled(c.o, t, s.start, s.end);
    if G.NodeBefore(c.q, t, m) {
      var i :| 0 <= i < m && i < |c.q.nodes| && c.q.nodes[i] == t;
      assert i < s.start;
      assert G.NodeBefore(c.q, t, s.start);
    }
  }

  /** In memory planned for the graph copy `p`, whatever a split copies has the value, when it is copied,
      that it would have in memory of its own, for all operations and inputs. */
  lemma CopiedValuesAreRight(c: Copying, plan: X.Plan, ops: X.Ops, s: X.Store, init: X.Contents, k: nat, x: nat)
    requires c.Valid() && G.WellFormed(c.q) && InputsInTime(c.q, c.r) && X.NonInterfering(c.p, plan)
    requires X.FitsPlan(c.p, plan, ops) && X.Loaded(c.p, plan, s, init)
    requires k < |c.r.splits| && x < |c.r.splits[k].inputs|
    ensures c.r.splits[k].inputs[x] < |c.o.tensors|
    ensures var i, w := PlaceOf(c.o, c.r, KeepSpot(k, x)), Root(c.o, c.r.splits[k].inputs[x]);
            i < |c.p.nodes| && w < |c.p.tensors|
            && X.Read(c.p, plan, X.RunFlat(c.p, plan, ops, s, i), w) == X.RunPrivate(c.p, ops, init, i)(w)
  {
    WellFormedInTime(c);
    var i := NodeAt(c, KeepSpot(k, x));
    assert InputInTime(c.q, c.r, k, x);
    SameTensor(c, c.r.splits[k].inputs[x]);
    X.SourceIsRight(c.p, plan, ops, s, init, i, 0);
  }
}
