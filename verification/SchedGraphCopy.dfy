/** The graph handed to the memory planner: each split's copies, then its nodes. */
module SchedGraphCopy {
  import opened Wrappers
  import opened SchedGraphs
  import opened SchedAssign
  import opened SchedSplit
  import opened SchedMeaning

  /** A view that keeps a copied tensor alive, a copy, or a node of the graph. */
  datatype CopyNode = Keep(t: nat) | Made(c: nat) | Own(t: nat)

  /** The room reserved for nodes, and for leafs. */
  function GraphSize(g: OpGraph, r: SplitPlan): nat {
    (if |g.nodes| >= |g.leafs| then |g.nodes| else |g.leafs|) + |r.splits| * MAX_SPLIT_INPUTS * 2
  }

  ghost function InputNodes(g: OpGraph, r: SplitPlan, s: Split, n: nat): (b: seq<CopyNode>)
    requires SplitRunnable(g, r, s) && n <= |s.inputs|
    ensures |b| == 2 * n
  {
    if n == 0 then []
    else InputNodes(g, r, s, n - 1) + [Keep(s.inputs[n - 1]), Made(r.copies[(s.inputs[n - 1], s.backend)])]
  }

  function OwnNodes(g: OpGraph, lo: nat, hi: nat): (b: seq<CopyNode>)
    requires lo <= hi <= |g.nodes|
    ensures |b| == hi - lo && forall p :: lo <= p < hi ==> b[p - lo] == Own(g.nodes[p])
  {
    seq(hi - lo, i requires 0 <= i < hi - lo => Own(g.nodes[lo + i]))
  }

  /** The nodes for the first `k` splits. */
  ghost function CopyGraph(g: OpGraph, r: SplitPlan, k: nat): seq<CopyNode>
    requires Runnable(g, r) && k <= |r.splits|
  {
    if k == 0 then []
    else
      var s := r.splits[k - 1];
      CopyGraph(g, r, k - 1) + InputNodes(g, r, s, |s.inputs|) + OwnNodes(g, s.start, s.end)
  }

  /** The first `k` splits leave enough room for the others. */
  lemma {:induction false} CopyGraphFits(g: OpGraph, ids: seq<int>, r: SplitPlan, k: nat)
    requires Runnable(g, r) && Chained(g, ids, r.splits, |g.nodes|) && k <= |r.splits|
    ensures |CopyGraph(g, r, k)| <= EndOf(r, k) + k * MAX_SPLIT_INPUTS * 2
    ensures EndOf(r, k) <= |g.nodes|
  {
    if k > 0 {
      CopyGraphFits(g, ids, r, k - 1);
      assert r.splits[k - 1].start == EndOf(r, k - 1);
    }
  }

  /** Nothing is written outside the reserved arrays. */
  method BuildGraphCopy(g: OpGraph, ghost ids: seq<int>, r: SplitPlan)
    returns (nodes: array<CopyNode>, n: nat, leafs: array<nat>, m: nat)
    requires Runnable(g, r) && Chained(g, ids, r.splits, |g.nodes|)
    ensures nodes.Length == leafs.Length == GraphSize(g, r)
    ensures n <= nodes.Length && nodes[..n] == CopyGraph(g, r, |r.splits|)
    ensures m <= leafs.Length && leafs[..m] == g.leafs
  {
    nodes := new CopyNode[GraphSize(g, r)](_ => Own(0));
    n := 0;
    var k := 0;
    while k < |r.splits|
      invariant k <= |r.splits| && n <= nodes.Length && nodes[..n] == CopyGraph(g, r, k)
    {
      n := CopyOne(g, ids, r, k, nodes, n);
      k := k + 1;
    }
    leafs := new nat[GraphSize(g, r)](_ => 0);
    m := 0;
    while m < |g.leafs|
      invariant m <= |g.leafs| && leafs[..m] == g.leafs[..m] && nodes[..n] == CopyGraph(g, r, |r.splits|)
    {
      leafs[m] := g.leafs[m];
      m := m + 1;
    }
  }

  method CopyOne(g: OpGraph, ghost ids: seq<int>, r: SplitPlan, k: nat, nodes: array<CopyNode>, from: nat)
    returns (n: nat)
    requires Runnable(g, r) && Chained(g, ids, r.splits, |g.nodes|) && k < |r.splits| && nodes.Length == GraphSize(g, r)
    requires from <= nodes.Length && nodes[..from] == CopyGraph(g, r, k)
    modifies nodes
    ensures n <= nodes.Length && nodes[..n] == CopyGraph(g, r, k + 1)
  {
    var s := r.splits[k];
    CopyGraphFits(g, ids, r, k);
    CopyGraphFits(g, ids, r, k + 1);
    n := PutInputs(g, r, s, nodes, from);
    n := PutOwn(g, s, nodes, n);
  }

  method PutInputs(g: OpGraph, r: SplitPlan, s: Split, nodes: array<CopyNode>, from: nat) returns (n: nat)
    requires SplitRunnable(g, r, s) && from + 2 * |s.inputs| <= nodes.Length
    modifies nodes
    ensures n == from + 2 * |s.inputs| && nodes[..n] == old(nodes[..from]) + InputNodes(g, r, s, |s.inputs|)
  {
    n := from;
    var j := 0;
    while j < |s.inputs|
      invariant j <= |s.inputs| && n == from + 2 * j && nodes[..n] == old(nodes[..from]) + InputNodes(g, r, s, j)
    {
      nodes[n] := Keep(s.inputs[j]);
      nodes[n + 1] := Made(r.copies[(s.inputs[j], s.backend)]);
      n := n + 2;
      j := j + 1;
    }
  }

  method PutOwn(g: OpGraph, s: Split, nodes: array<CopyNode>, from: nat) returns (n: nat)
    requires s.start <= s.end <= |g.nodes| && from + s.end - s.start <= nodes.Length
    modifies nodes
    ensures n == from + s.end - s.start && nodes[..n] == old(nodes[..from]) + OwnNodes(g, s.start, s.end)
  {
    n := from;
    var i := s.start;
    while i < s.end
      invariant s.start <= i <= s.end && n == from + i - s.start
      invariant nodes[..n] == old(nodes[..from]) + OwnNodes(g, s.start, i)
    {
      nodes[n] := Own(g.nodes[i]);
      n := n + 1;
      i := i + 1;
    }
  }

  // ---- where things are in it

  ghost predicate Before(nodes: seq<CopyNode>, x: CopyNode, y: CopyNode) {
    exists i, j :: 0 <= i < j < |nodes| && nodes[i] == x && nodes[j] == y
  }

  lemma {:induction false} CopyGraphGrows(g: OpGraph, r: SplitPlan, k: nat, l: nat)
    requires Runnable(g, r) && k <= l <= |r.splits|
    ensures CopyGraph(g, r, k) <= CopyGraph(g, r, l)
  {
    if k < l { CopyGraphGrows(g, r, k, l - 1); }
  }

  lemma {:induction false} InputNodesAt(g: OpGraph, r: SplitPlan, s: Split, n: nat, x: nat)
    requires SplitRunnable(g, r, s) && x < n <= |s.inputs|
    ensures InputNodes(g, r, s, n)[2 * x] == Keep(s.inputs[x])
    ensures InputNodes(g, r, s, n)[2 * x + 1] == Made(r.copies[(s.inputs[x], s.backend)])
  {
    if x < n - 1 { InputNodesAt(g, r, s, n - 1, x); }
  }

  /** Input `x` of split `k`. */
  lemma InputIsAt(g: OpGraph, r: SplitPlan, k: nat, x: nat) returns (i: nat)
    requires Runnable(g, r) && k < |r.splits| && x < |r.splits[k].inputs|
    ensures i == |CopyGraph(g, r, k)| + 2 * x && i + 1 < |CopyGraph(g, r, |r.splits|)|
    ensures CopyGraph(g, r, |r.splits|)[i] == Keep(r.splits[k].inputs[x])
    ensures CopyGraph(g, r, |r.splits|)[i + 1] == Made(r.copies[(r.splits[k].inputs[x], r.splits[k].backend)])
  {
    var s := r.splits[k];
    i := |CopyGraph(g, r, k)| + 2 * x;
    InputNodesAt(g, r, s, |s.inputs|, x);
    CopyGraphGrows(g, r, k + 1, |r.splits|);
    assert CopyGraph(g, r, k + 1)[i] == Keep(s.inputs[x])
        && CopyGraph(g, r, k + 1)[i + 1] == Made(r.copies[(s.inputs[x], s.backend)]);
  }

  /** Node `p`, in split `k`. */
  lemma OwnIsAt(g: OpGraph, r: SplitPlan, k: nat, p: nat) returns (i: nat)
    requires Runnable(g, r) && k < |r.splits| && r.splits[k].start <= p < r.splits[k].end
    ensures i == |CopyGraph(g, r, k)| + 2 * |r.splits[k].inputs| + p - r.splits[k].start && i < |CopyGraph(g, r, k + 1)|
    ensures |CopyGraph(g, r, k + 1)| <= |CopyGraph(g, r, |r.splits|)|
    ensures CopyGraph(g, r, |r.splits|)[i] == Own(g.nodes[p])
  {
    var s := r.splits[k];
    i := |CopyGraph(g, r, k)| + 2 * |s.inputs| + p - s.start;
    CopyGraphGrows(g, r, k + 1, |r.splits|);
    assert CopyGraph(g, r, k + 1)[i] == Own(g.nodes[p]);
  }

  /** Where the copy read in slot `j` of node `p` of split `k` is made. */
  lemma MadeWhere(g: OpGraph, e: Backends, ids: seq<int>, r: SplitPlan, k: nat, p: nat, j: nat) returns (l: nat, x: nat)
    requires WellSplit(g, e, ids, r) && Runnable(g, r) && k < |r.splits| && r.splits[k].start <= p < r.splits[k].end
    requires Computing(g, g.nodes[p]) && j < |Src(g, p)| && NeedsCopy(g, e, ids, Src(g, p)[j], r.splits[k].backend)
    ensures l <= k && x < |r.splits[l].inputs| && r.splits[l].inputs[x] == Src(g, p)[j]
    ensures j < |r.src[g.nodes[p]]| && r.src[g.nodes[p]][j] == r.copies[(Src(g, p)[j], r.splits[l].backend)]
  {
    var t, b := Src(g, p)[j], r.splits[k].backend;
    assert SplitDone(g, e, ids, r.src, r.copies, r.splits[k], |g.nodes|);
    assert SlotDone(g, e, ids, r.copies, t, r.src[g.nodes[p]][j], b);
    assert MadeInTime(g, e, ids, r.splits, k, p) && MadeBy(r.splits, t, b, k + 1);
    l :| 0 <= l < k + 1 && l < |r.splits| && r.splits[l].backend == b && t in r.splits[l].inputs;
    x :| 0 <= x < |r.splits[l].inputs| && r.splits[l].inputs[x] == t;
  }

  /** Whatever is copied is kept alive up to its copy, and a node that reads the copy comes later. */
  lemma CopiesComeFirst(g: OpGraph, e: Backends, ids: seq<int>, r: SplitPlan, k: nat, p: nat, j: nat)
    requires WellSplit(g, e, ids, r) && Runnable(g, r) && k < |r.splits| && r.splits[k].start <= p < r.splits[k].end
    requires Computing(g, g.nodes[p]) && j < |Src(g, p)| && NeedsCopy(g, e, ids, Src(g, p)[j], r.splits[k].backend)
    ensures var full := CopyGraph(g, r, |r.splits|);
            j < |r.src[g.nodes[p]]| && Before(full, Keep(Src(g, p)[j]), Made(r.src[g.nodes[p]][j]))
                && Before(full, Made(r.src[g.nodes[p]][j]), Own(g.nodes[p]))
  {
    var l, x := MadeWhere(g, e, ids, r, k, p, j);
    InputPrecedesNode(g, r, l, x, k, p);
  }

  lemma InputPrecedesNode(g: OpGraph, r: SplitPlan, l: nat, x: nat, k: nat, p: nat)
    requires Runnable(g, r) && l <= k < |r.splits| && r.splits[k].start <= p < r.splits[k].end
    requires x < |r.splits[l].inputs|
    ensures var full, t, c :=
        CopyGraph(g, r, |r.splits|), r.splits[l].inputs[x], r.copies[(r.splits[l].inputs[x], r.splits[l].backend)];
            Before(full, Keep(t), Made(c)) && Before(full, Made(c), Own(g.nodes[p]))
  {
    var i := InputIsAt(g, r, l, x);
    var o := OwnIsAt(g, r, k, p);
    CopyGraphGrows(g, r, l, k);
    if l < k { CopyGraphGrows(g, r, l + 1, k); }
    assert i + 1 < o;
  }

  /** The nodes of the graph come in their own order. */
  lemma NodesComeInOrder(g: OpGraph, ids: seq<int>, r: SplitPlan, k: nat, p: nat, l: nat, q: nat)
    requires Runnable(g, r) && Chained(g, ids, r.splits, |g.nodes|) && k < |r.splits| && l < |r.splits| && p < q
    requires r.splits[k].start <= p < r.splits[k].end && r.splits[l].start <= q < r.splits[l].end
    ensures Before(CopyGraph(g, r, |r.splits|), Own(g.nodes[p]), Own(g.nodes[q]))
  {
    SplitsInOrder(g, ids, r, k, p, l, q);
    LaterIsBehind(g, r, k, p, l, q);
  }

  lemma LaterIsBehind(g: OpGraph, r: SplitPlan, k: nat, p: nat, l: nat, q: nat)
    requires Runnable(g, r) && k <= l < |r.splits| && p < q
    requires r.splits[k].start <= p < r.splits[k].end && r.splits[l].start <= q < r.splits[l].end
    ensures Before(CopyGraph(g, r, |r.splits|), Own(g.nodes[p]), Own(g.nodes[q]))
  {
    var i := OwnIsAt(g, r, k, p);
    var o := OwnIsAt(g, r, l, q);
    if k < l { CopyGraphGrows(g, r, k + 1, l); }
    InOrder(CopyGraph(g, r, |r.splits|), i, o, Own(g.nodes[p]), Own(g.nodes[q]));
  }

  lemma SplitsInOrder(g: OpGraph, ids: seq<int>, r: SplitPlan, k: nat, p: nat, l: nat, q: nat)
    requires Chained(g, ids, r.splits, |g.nodes|) && k < |r.splits| && l < |r.splits| && p < q
    requires r.splits[k].start <= p < r.splits[k].end && r.splits[l].start <= q < r.splits[l].end
    ensures k <= l
  {
    if l < k { EarlierSplit(g, ids, r, l, q, k, p); }
  }

  lemma EarlierSplit(g: OpGraph, ids: seq<int>, r: SplitPlan, k: nat, p: nat, l: nat, q: nat)
    requires Chained(g, ids, r.splits, |g.nodes|) && k < l < |r.splits|
    requires r.splits[k].start <= p < r.splits[k].end && r.splits[l].start <= q < r.splits[l].end
    ensures p < q
  {
    EndsGrow(g, ids, r, k + 1, l);
    assert EndOf(r, l) == r.splits[l].start;
  }

  lemma InOrder(nodes: seq<CopyNode>, i: nat, o: nat, x: CopyNode, y: CopyNode)
    requires i < o < |nodes| && nodes[i] == x && nodes[o] == y
    ensures Before(nodes, x, y)
  {
  }
}
