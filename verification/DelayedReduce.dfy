/** Where the meta backend cuts a graph into subgraphs: an all-reduce may wait until the end of a chain
    of operations that are linear in the value to be reduced. */
module DelayedReduce {
  import opened Arithmetic
  import opened Wrappers

  datatype Op = None_ | AddId | Mul | View | Add | Other

  datatype Axis = Mirrored | Partial | Split

  datatype Tensor = Tensor(
    op: Op,
    src: seq<nat>,
    viewOf: Option<nat>,
    expert: nat,      // for a view of one expert: which one its offset selects
    sameShape: bool,  // for a view: shape and strides are those of one expert of its root
    experts: nat,     // the extent that counts experts
    uses: nat,        // source slots that name it
    host: bool,       // in host memory
    axis: Axis)       // before any all-reduce

  datatype RawGraph = RawGraph(tensors: seq<Tensor>, nodes: seq<nat>) {
    ghost predicate InRange() {
      && (forall i :: 0 <= i < |nodes| ==> nodes[i] < |tensors|)
      && (forall t, j :: 0 <= t < |tensors| && 0 <= j < |tensors[t].src| ==> tensors[t].src[j] < |tensors|)
      && (forall t :: 0 <= t < |tensors| && tensors[t].viewOf.Some? ==> tensors[t].viewOf.value < |tensors|)
    }
  }

  type Graph = g: RawGraph | g.InRange() witness RawGraph([], [])

  function At(g: Graph, i: nat): (t: Tensor)
    requires i < |g.nodes|
    ensures forall j :: 0 <= j < |t.src| ==> t.src[j] < |g.tensors|
  {
    g.tensors[g.nodes[i]]
  }

  /** Source `j` of `t` is tensor `s`. */
  predicate Reads(t: Tensor, j: nat, s: nat) {
    j < |t.src| && t.src[j] == s
  }

  predicate SourceIs(g: Graph, t: Tensor, j: nat, axis: Axis) {
    j < |t.src| && t.src[j] < |g.tensors| && g.tensors[t.src[j]].axis == axis
  }

  predicate IsAddIdOf(g: Graph, i: nat, p: nat) {
    i < |g.nodes| && p < |g.nodes| && At(g, p).op == AddId && Reads(At(g, p), 0, g.nodes[i])
        && SourceIs(g, At(g, p), 1, Partial) && SourceIs(g, At(g, p), 2, Mirrored)
  }

  predicate IsMulOf(g: Graph, i: nat, p: nat) {
    i < |g.nodes| && p < |g.nodes| && At(g, p).op == Mul && Reads(At(g, p), 0, g.nodes[i])
        && SourceIs(g, At(g, p), 1, Mirrored)
  }

  predicate IsExpertOf(g: Graph, h: nat, k: nat, p: nat) {
    && h < |g.nodes| && p < |g.nodes| && At(g, p).op == View && At(g, p).viewOf == Some(g.nodes[h])
    && At(g, p).expert == k && At(g, p).sameShape && At(g, p).uses == 1
  }

  predicate IsSumOf(g: Graph, p: nat, a: nat, b: nat) {
    && p < |g.nodes| && a < |g.nodes| && b < |g.nodes|
    && At(g, p).op == Add && Reads(At(g, p), 0, g.nodes[a]) && Reads(At(g, p), 1, g.nodes[b]) && At(g, p).uses == 1
  }

  /** The head's experts are taken apart by views and added up one after the other. */
  ghost predicate FanAt(g: Graph, h: nat) {
    h < |g.nodes| && FanOf(g, h, At(g, h).experts)
  }

  ghost predicate FanOf(g: Graph, h: nat, n: nat)
    requires h < |g.nodes|
  {
    && n >= 2 && At(g, h).uses == n && h + 2 * n - 1 < |g.nodes|
    && (forall k :: 0 <= k < n ==> ViewAt(g, h, k))
    && (forall k :: 1 <= k < n ==> SumAt(g, h, n, k))
  }

  /** The view of expert `k`, among the nodes that follow the head. */
  predicate ViewAt(g: Graph, h: nat, k: nat) {
    IsExpertOf(g, h, k, h + 1 + k)
  }

  /** The addition of expert `k`, after the `n` views, to the sum of those before it. */
  predicate SumAt(g: Graph, h: nat, n: nat, k: nat)
    requires k > 0
  {
    IsSumOf(g, h + n + k, if k == 1 then h + 1 else h + n + k - 1, h + 1 + k)
  }

  /** The chain that starts at node `i`: with a bias, with weights, and taken apart and added up. */
  datatype Chain = Chain(bias: bool, weights: bool, fan: bool)

  function Head(i: nat, c: Chain): nat {
    i + (if c.bias then 1 else 0) + (if c.weights then 1 else 0)
  }

  function End(g: Graph, i: nat, c: Chain): nat
    requires Head(i, c) < |g.nodes|
  {
    Head(i, c) + (if c.fan && At(g, Head(i, c)).experts >= 1 then 2 * At(g, Head(i, c)).experts - 1 else 0)
  }

  /** The longest chain. */
  ghost predicate ChainAt(g: Graph, i: nat, c: Chain) {
    && Head(i, c) < |g.nodes|
    && (c.bias <==> IsAddIdOf(g, i, i + 1))
    && (c.weights <==> IsMulOf(g, if c.bias then i + 1 else i, if c.bias then i + 2 else i + 1))
    && (c.fan <==> FanAt(g, Head(i, c)))
  }

  /** Nodes are operations with results that are not empty, and none reads itself. */
  ghost predicate WellFormed(g: Graph) {
    && (forall p, j :: 0 <= p < |g.nodes| && 0 <= j < |At(g, p).src| ==> At(g, p).src[j] != g.nodes[p])
    && (forall p :: 0 <= p < |g.nodes| ==> At(g, p).op != None_ && At(g, p).experts >= 1)
    && (forall p, q :: 0 <= p < q < |g.nodes| ==> g.nodes[p] != g.nodes[q])
  }

  /** The node list is read one entry past its end. */
  ghost predicate LooksPastEnd(g: Graph, h: nat) {
    h + 2 == |g.nodes| && At(g, h).experts == 1 && At(g, h).uses == 1 && ViewAt(g, h, 0)
  }

  /** The last node of the chain that starts at node `i`. */
  method GetDelayed(g: Graph, i: nat) returns (idr: nat, ghost chain: Chain, ghost pastEnd: bool)
    requires WellFormed(g) && i < |g.nodes|
    ensures ChainAt(g, i, chain) && idr == End(g, i, chain) && i <= idr < |g.nodes|
    ensures pastEnd <==> LooksPastEnd(g, Head(i, chain))
  {
    var id := i;
    chain, pastEnd := Chain(false, false, false), false;
    if id + 1 < |g.nodes| && IsAddIdOf(g, id, id + 1) {
      id := id + 1;
      chain := chain.(bias := true);
    }
    if id + 1 < |g.nodes| && IsMulOf(g, id, id + 1) {
      id := id + 1;
      chain := chain.(weights := true);
    }
    var fan;
    fan, pastEnd := MatchFan(g, id);
    chain := chain.(fan := fan);
    idr := if fan then id + 2 * At(g, id).experts - 1 else id;
  }

  method MatchFan(g: Graph, h: nat) returns (fan: bool, ghost pastEnd: bool)
    requires WellFormed(g) && h < |g.nodes|
    ensures fan <==> FanAt(g, h)
    ensures pastEnd <==> LooksPastEnd(g, h)
  {
    pastEnd := false;
    var n := At(g, h).uses;
    if n != At(g, h).experts || h + 2 * n - 1 >= |g.nodes| { return false, false; }
    var id := h;
    var k := 0;
    while k < n
      invariant k <= n && id == h + k && forall l :: 0 <= l < k ==> ViewAt(g, h, l)
    {
      if !IsExpertOf(g, h, k, id + 1) {
        assert !ViewAt(g, h, k);
        return false, false;
      }
      id := id + 1;
      k := k + 1;
    }
    if id + 1 >= |g.nodes| {
      assert ViewAt(g, h, 0);
      return false, true;
    }
    if n < 2 { return false, false; }
    if !IsSumOf(g, id + 1, id - (n - 1), id - (n - 2)) {
      assert !SumAt(g, h, n, 1);
      return false, false;
    }
    id := id + 1;
    k := 0;
    while k < n - 2
      invariant k <= n - 2 && id == h + n + 1 + k && forall l :: 1 <= l < k + 2 ==> SumAt(g, h, n, l)
    {
      if !IsSumOf(g, id + 1, id, id - (n - 2)) {
        assert !SumAt(g, h, n, k + 2);
        return false, false;
      }
      id := id + 1;
      k := k + 1;
    }
    fan := true;
  }

  /** A product of experts with a bias, its weights, the views of the `n` experts and their `n - 1` additions
      are delayed as a whole. */
  lemma WholePatternIsDelayed(g: Graph, i: nat, c: Chain, n: nat)
    requires ChainAt(g, i, c) && n >= 2 && i + 2 + 2 * n - 1 < |g.nodes|
    requires At(g, i + 1).op == AddId && |At(g, i + 1).src| == 3 && At(g, i + 1).src[0] == g.nodes[i]
    requires g.tensors[At(g, i + 1).src[1]].axis == Partial && g.tensors[At(g, i + 1).src[2]].axis == Mirrored
    requires At(g, i + 2).op == Mul && |At(g, i + 2).src| == 2 && At(g, i + 2).src[0] == g.nodes[i + 1]
    requires g.tensors[At(g, i + 2).src[1]].axis == Mirrored && At(g, i + 2).experts == n == At(g, i + 2).uses
    requires forall p :: i + 2 < p <= i + 2 + n ==>
        At(g, p).op == View && At(g, p).viewOf == Some(g.nodes[i + 2])
        && At(g, p).expert == p - i - 3 && At(g, p).sameShape && At(g, p).uses == 1
    requires forall p :: i + 2 + n < p < i + 2 + 2 * n ==>
        At(g, p).op == Add && At(g, p).uses == 1
        && At(g, p).src == [g.nodes[if p == i + 3 + n then i + 3 else p - 1], g.nodes[p - n + 1]]
    ensures End(g, i, c) == i + 2 + 2 * n - 1
  {
    var h := i + 2;
    forall k | 0 <= k < n ensures ViewAt(g, h, k) {}
    forall k | 1 <= k < n ensures SumAt(g, h, n, k) {}
    assert FanAt(g, h);
  }

  // ---- what the chain computes

  /** A value by expert. */
  type Value = seq<int>

  /** The values of all tensors on one device. */
  type Env = seq<Value>

  function Get(v: Value, e: int): int {
    if 0 <= e < |v| then v[e] else 0
  }

  function Operand(env: Env, t: Tensor, j: nat): Value {
    if j < |t.src| && t.src[j] < |env| then env[t.src[j]] else []
  }

  /** The operations of a chain: a bias picked by expert ids, weights, one expert of a view, a sum. */
  function Apply(g: Graph, env: Env, p: nat): Value
    requires p < |g.nodes| && |env| == |g.tensors|
  {
    var t := At(g, p);
    var a, b := Operand(env, t, 0), Operand(env, t, 1);
    match t.op
    case AddId => seq(|a|, e requires 0 <= e < |a| => a[e] + Get(b, Get(Operand(env, t, 2), e)))
    case Mul => seq(|a|, e requires 0 <= e < |a| => a[e] * Get(b, e))
    case View => [if t.viewOf.Some? then Get(env[t.viewOf.value], t.expert) else 0]
    case Add => seq(|a|, e requires 0 <= e < |a| => a[e] + Get(b, e))
    case _ => env[g.nodes[p]]
  }

  /** The nodes from `lo` up to `hi`. */
  function RunNodes(g: Graph, env: Env, lo: nat, hi: nat): (r: Env)
    requires lo <= hi <= |g.nodes| && |env| == |g.tensors|
    ensures |r| == |env|
    decreases hi
  {
    if lo == hi then env
    else
      var u := RunNodes(g, env, lo, hi - 1);
      u[g.nodes[hi - 1] := Apply(g, u, hi - 1)]
  }

  function RunAll(g: Graph, envs: seq<Env>, lo: nat, hi: nat): (r: seq<Env>)
    requires lo <= hi <= |g.nodes| && Sized(g, envs)
    ensures Sized(g, r) && |r| == |envs|
  {
    seq(|envs|, j requires 0 <= j < |envs| => RunNodes(g, envs[j], lo, hi))
  }

  predicate Sized(g: Graph, envs: seq<Env>) {
    forall j :: 0 <= j < |envs| ==> |envs[j]| == |g.tensors|
  }

  /** The sum over all devices. */
  function Total(g: Graph, envs: seq<Env>, t: nat, e: int): int
    requires Sized(g, envs) && t < |g.tensors|
  {
    if envs == [] then 0 else Total(g, envs[..|envs| - 1], t, e) + Get(envs[|envs| - 1][t], e)
  }

  /** The devices hold parts whose sum is the value. */
  ghost predicate Parts(g: Graph, full: Env, envs: seq<Env>, t: nat) {
    && Sized(g, envs) && t < |g.tensors| == |full|
    && (forall j :: 0 <= j < |envs| ==> |envs[j][t]| == |full[t]|)
    && (forall e :: 0 <= e < |full[t]| ==> full[t][e] == Total(g, envs, t, e))
  }

  /** Every device holds the value. */
  ghost predicate Shared(g: Graph, full: Env, envs: seq<Env>, t: nat) {
    Sized(g, envs) && t < |g.tensors| == |full| && forall j :: 0 <= j < |envs| ==> envs[j][t] == full[t]
  }

  /** Sums pass through linear combinations. */
  lemma {:induction false} TotalIsLinear(g: Graph, envs: seq<Env>, envs': seq<Env>, t: nat, e: int, a: nat, ea: int,
                                         ca: int, b: nat, eb: int, cb: int)
    requires Sized(g, envs) && Sized(g, envs') && |envs| == |envs'| && t < |g.tensors| && a < |g.tensors|
    requires b < |g.tensors|
    requires forall j :: 0 <= j < |envs| ==> Get(envs'[j][t], e) == ca * Get(envs[j][a], ea) + cb * Get(envs[j][b], eb)
    ensures Total(g, envs', t, e) == ca * Total(g, envs, a, ea) + cb * Total(g, envs, b, eb)
  {
    if envs != [] {
      var n := |envs| - 1;
      TotalIsLinear(g, envs[..n], envs'[..n], t, e, a, ea, ca, b, eb, cb);
      Distribute(ca, Total(g, envs[..n], a, ea), Get(envs[n][a], ea));
      Distribute(cb, Total(g, envs[..n], b, eb), Get(envs[n][b], eb));
    }
  }

  /** The operands that node `p` needs to be linear in the value. */
  ghost predicate LinearOperands(g: Graph, full: Env, envs: seq<Env>, p: nat)
    requires p < |g.nodes|
  {
    var t := At(g, p);
    match t.op
    case AddId => |t.src| >= 3 && Parts(g, full, envs, t.src[0]) && Parts(g, full, envs, t.src[1])
        && Shared(g, full, envs, t.src[2])
    case Mul => |t.src| >= 2 && Parts(g, full, envs, t.src[0]) && Shared(g, full, envs, t.src[1])
    case View => t.viewOf.Some? && Parts(g, full, envs, t.viewOf.value)
    case Add => |t.src| >= 2 && Parts(g, full, envs, t.src[0]) && Parts(g, full, envs, t.src[1])
    case _ => false
  }

  function StepAll(g: Graph, envs: seq<Env>, p: nat): (r: seq<Env>)
    requires p < |g.nodes| && Sized(g, envs)
    ensures Sized(g, r) && |r| == |envs|
  {
    seq(|envs|, j requires 0 <= j < |envs| => envs[j][g.nodes[p] := Apply(g, envs[j], p)])
  }

  /** The value of a part beyond its end is 0 everywhere. */
  lemma {:induction false} TotalOutside(g: Graph, full: Env, envs: seq<Env>, t: nat, e: int)
    requires Sized(g, envs) && t < |g.tensors| == |full| && (forall j :: 0 <= j < |envs| ==> |envs[j][t]| == |full[t]|)
    requires !(0 <= e < |full[t]|)
    ensures Total(g, envs, t, e) == 0
  {
    if envs != [] { TotalOutside(g, full, envs[..|envs| - 1], t, e); }
  }

  lemma PartsSum(g: Graph, full: Env, envs: seq<Env>, t: nat, e: int)
    requires Parts(g, full, envs, t)
    ensures Get(full[t], e) == Total(g, envs, t, e)
  {
    if !(0 <= e < |full[t]|) { TotalOutside(g, full, envs, t, e); }
  }

  /** A node of a chain keeps the property that the devices hold parts. */
  lemma StepIsLinear(g: Graph, full: Env, envs: seq<Env>, p: nat)
    requires p < |g.nodes| && |full| == |g.tensors| && Sized(g, envs) && LinearOperands(g, full, envs, p)
    ensures Parts(g, full[g.nodes[p] := Apply(g, full, p)], StepAll(g, envs, p), g.nodes[p])
  {
    var t, n := At(g, p), g.nodes[p];
    var full', envs' := full[n := Apply(g, full, p)], StepAll(g, envs, p);
    forall e | 0 <= e < |full'[n]| ensures full'[n][e] == Total(g, envs', n, e) { StepIsLinearAt(g, full, envs, p, e); }
  }

  lemma StepIsLinearAt(g: Graph, full: Env, envs: seq<Env>, p: nat, e: nat)
    requires p < |g.nodes| && |full| == |g.tensors| && Sized(g, envs) && LinearOperands(g, full, envs, p)
    requires e < |Apply(g, full, p)|
    ensures Apply(g, full, p)[e] == Total(g, StepAll(g, envs, p), g.nodes[p], e)
  {
    match At(g, p).op
    case AddId => BiasIsLinear(g, full, envs, p, e);
    case Mul => WeightsAreLinear(g, full, envs, p, e);
    case View => ViewIsLinear(g, full, envs, p, e);
    case Add => SumIsLinear(g, full, envs, p, e);
  }

  lemma BiasIsLinear(g: Graph, full: Env, envs: seq<Env>, p: nat, e: nat)
    requires p < |g.nodes| && |full| == |g.tensors| && Sized(g, envs) && LinearOperands(g, full, envs, p)
    requires At(g, p).op == AddId && e < |Apply(g, full, p)|
    ensures Apply(g, full, p)[e] == Total(g, StepAll(g, envs, p), g.nodes[p], e)
  {
    var src := At(g, p).src;
    var id := Get(full[src[2]], e);
    PartsSum(g, full, envs, src[0], e);
    PartsSum(g, full, envs, src[1], id);
    TotalIsLinear(g, envs, StepAll(g, envs, p), g.nodes[p], e, src[0], e, 1, src[1], id, 1);
  }

  lemma WeightsAreLinear(g: Graph, full: Env, envs: seq<Env>, p: nat, e: nat)
    requires p < |g.nodes| && |full| == |g.tensors| && Sized(g, envs) && LinearOperands(g, full, envs, p)
    requires At(g, p).op == Mul && e < |Apply(g, full, p)|
    ensures Apply(g, full, p)[e] == Total(g, StepAll(g, envs, p), g.nodes[p], e)
  {
    var src, n, envs' := At(g, p).src, g.nodes[p], StepAll(g, envs, p);
    var w := Get(full[src[1]], e);
    forall j | 0 <= j < |envs| ensures Get(envs'[j][n], e) == w * Get(envs[j][src[0]], e) {
      assert envs[j][src[1]] == full[src[1]] && |envs[j][src[0]]| == |full[src[0]]|;
      assert envs'[j][n] == Apply(g, envs[j], p);
    }
    PartsSum(g, full, envs, src[0], e);
    TotalIsLinear(g, envs, envs', n, e, src[0], e, w, src[0], e, 0);
  }

  lemma ViewIsLinear(g: Graph, full: Env, envs: seq<Env>, p: nat, e: nat)
    requires p < |g.nodes| && |full| == |g.tensors| && Sized(g, envs) && LinearOperands(g, full, envs, p)
    requires At(g, p).op == View && e < |Apply(g, full, p)|
    ensures Apply(g, full, p)[e] == Total(g, StepAll(g, envs, p), g.nodes[p], e)
  {
    var t, n := At(g, p), g.nodes[p];
    PartsSum(g, full, envs, t.viewOf.value, t.expert);
    TotalIsLinear(g, envs, StepAll(g, envs, p), n, e, t.viewOf.value, t.expert, 1, n, e, 0);
  }

  lemma SumIsLinear(g: Graph, full: Env, envs: seq<Env>, p: nat, e: nat)
    requires p < |g.nodes| && |full| == |g.tensors| && Sized(g, envs) && LinearOperands(g, full, envs, p)
    requires At(g, p).op == Add && e < |Apply(g, full, p)|
    ensures Apply(g, full, p)[e] == Total(g, StepAll(g, envs, p), g.nodes[p], e)
  {
    var src := At(g, p).src;
    PartsSum(g, full, envs, src[0], e);
    PartsSum(g, full, envs, src[1], e);
    TotalIsLinear(g, envs, StepAll(g, envs, p), g.nodes[p], e, src[0], e, 1, src[1], e, 1);
  }

  lemma StepKeepsParts(g: Graph, full: Env, envs: seq<Env>, p: nat, u: nat)
    requires p < |g.nodes| && u != g.nodes[p] && Parts(g, full, envs, u)
    ensures Parts(g, full[g.nodes[p] := Apply(g, full, p)], StepAll(g, envs, p), u)
  {
    forall e | 0 <= e < |full[u]| ensures full[u][e] == Total(g, StepAll(g, envs, p), u, e) {
      TotalIsLinear(g, envs, StepAll(g, envs, p), u, e, u, e, 1, u, e, 0);
    }
  }

  /** `t` is there before node `i` runs and is not touched afterwards. */
  ghost predicate NotLater(g: Graph, i: nat, t: nat) {
    forall q :: i <= q < |g.nodes| ==> g.nodes[q] != t
  }

  /** Bias and ids, and weights, are there, as the states of these tensors promise: the bias in parts,
      the others everywhere. */
  ghost predicate OperandsReady(g: Graph, i: nat, c: Chain, full: Env, envs: seq<Env>)
    requires Head(i, c) < |g.nodes|
  {
    && (c.bias ==> BiasReady(g, i, full, envs, At(g, i + 1).src))
    && (c.weights ==> WeightsReady(g, i, full, envs, At(g, Head(i, c)).src))
  }

  ghost predicate BiasReady(g: Graph, i: nat, full: Env, envs: seq<Env>, src: seq<nat>) {
    |src| >= 3 && Parts(g, full, envs, src[1]) && Shared(g, full, envs, src[2]) && NotLater(g, i, src[1])
        && NotLater(g, i, src[2])
  }

  ghost predicate WeightsReady(g: Graph, i: nat, full: Env, envs: seq<Env>, src: seq<nat>) {
    |src| >= 2 && Shared(g, full, envs, src[1]) && NotLater(g, i, src[1])
  }

  lemma StepKeepsOperands(g: Graph, i: nat, c: Chain, full: Env, envs: seq<Env>, p: nat)
    requires Head(i, c) < |g.nodes| && i <= p < |g.nodes| && |full| == |g.tensors| && Sized(g, envs)
    requires OperandsReady(g, i, c, full, envs)
    ensures OperandsReady(g, i, c, full[g.nodes[p] := Apply(g, full, p)], StepAll(g, envs, p))
  {
    if c.bias { StepKeepsParts(g, full, envs, p, At(g, i + 1).src[1]); }
  }

  ghost predicate ChainParts(g: Graph, i: nat, c: Chain, full: Env, envs: seq<Env>, p: nat)
    requires Head(i, c) < |g.nodes|
  {
    && |full| == |g.tensors| && Sized(g, envs) && OperandsReady(g, i, c, full, envs)
    && forall q {:trigger Parts(g, full, envs, g.nodes[q])} ::
        i <= q <= p && q < |g.nodes| ==> Parts(g, full, envs, g.nodes[q])
  }

  /** The next node of the chain has what it needs. */
  lemma ChainNodeIsLinear(g: Graph, i: nat, c: Chain, full: Env, envs: seq<Env>, p: nat)
    requires ChainAt(g, i, c) && i <= p < End(g, i, c) < |g.nodes| && ChainParts(g, i, c, full, envs, p)
    ensures LinearOperands(g, full, envs, p + 1)
  {
    var h := Head(i, c);
    if p + 1 > h {
      var n := At(g, h).experts;
      if p + 1 <= h + n { assert ViewAt(g, h, p - h); }
      else { assert SumAt(g, h, n, p + 1 - h - n); }
    }
  }

  lemma StepKeepsChain(g: Graph, i: nat, c: Chain, full: Env, envs: seq<Env>, p: nat)
    requires WellFormed(g) && ChainAt(g, i, c) && i < p <= End(g, i, c) < |g.nodes|
    requires ChainParts(g, i, c, full, envs, p - 1)
    ensures ChainParts(g, i, c, full[g.nodes[p] := Apply(g, full, p)], StepAll(g, envs, p), p)
  {
    ChainNodeIsLinear(g, i, c, full, envs, p - 1);
    StepIsLinear(g, full, envs, p);
    EarlierKeepParts(g, i, c, full, envs, p);
    StepKeepsOperands(g, i, c, full, envs, p);
  }

  lemma EarlierKeepParts(g: Graph, i: nat, c: Chain, full: Env, envs: seq<Env>, p: nat)
    requires WellFormed(g) && Head(i, c) < |g.nodes| && i < p < |g.nodes| && ChainParts(g, i, c, full, envs, p - 1)
    ensures forall q :: i <= q < p ==>
              Parts(g, full[g.nodes[p] := Apply(g, full, p)], StepAll(g, envs, p), g.nodes[q])
  {
    forall q | i <= q < p
      ensures Parts(g, full[g.nodes[p] := Apply(g, full, p)], StepAll(g, envs, p), g.nodes[q])
    {
      StepKeepsParts(g, full, envs, p, g.nodes[q]);
    }
  }

  lemma RunStep(g: Graph, full: Env, envs: seq<Env>, lo: nat, p: nat)
    requires lo <= p < |g.nodes| && |full| == |g.tensors| && Sized(g, envs)
    ensures RunNodes(g, full, lo, p + 1)
        == RunNodes(g, full, lo, p)[g.nodes[p] := Apply(g, RunNodes(g, full, lo, p), p)]
    ensures RunAll(g, envs, lo, p + 1) == StepAll(g, RunAll(g, envs, lo, p), p)
  {
  }

  /** After the nodes of the chain up to `hi`, all of them hold parts. */
  ghost predicate RunHasParts(g: Graph, i: nat, c: Chain, full: Env, envs: seq<Env>, hi: nat)
    requires Head(i, c) < |g.nodes| && i < hi <= |g.nodes| && |full| == |g.tensors| && Sized(g, envs)
  {
    ChainParts(g, i, c, RunNodes(g, full, i + 1, hi), RunAll(g, envs, i + 1, hi), hi - 1)
  }

  lemma RunAdvances(g: Graph, i: nat, c: Chain, full: Env, envs: seq<Env>, p: nat)
    requires WellFormed(g) && ChainAt(g, i, c) && i < p <= End(g, i, c) < |g.nodes| && |full| == |g.tensors|
    requires Sized(g, envs)
    requires RunHasParts(g, i, c, full, envs, p)
    ensures RunHasParts(g, i, c, full, envs, p + 1)
  {
    RunStep(g, full, envs, i + 1, p);
    StepKeepsChain(g, i, c, RunNodes(g, full, i + 1, p), RunAll(g, envs, i + 1, p), p);
  }

  lemma {:induction false} ChainIsLinear(g: Graph, i: nat, c: Chain, full: Env, envs: seq<Env>, hi: nat)
    requires WellFormed(g) && ChainAt(g, i, c) && i < hi <= End(g, i, c) + 1 <= |g.nodes| && |full| == |g.tensors|
    requires Sized(g, envs)
    requires RunHasParts(g, i, c, full, envs, i + 1)
    ensures RunHasParts(g, i, c, full, envs, hi)
    decreases hi
  {
    if hi > i + 1 {
      var p := hi - 1;
      ChainIsLinear(g, i, c, full, envs, p);
      RunAdvances(g, i, c, full, envs, p);
    }
  }

  /** What every device holds in `t` after an all-reduce. */
  function AllReduced(g: Graph, envs: seq<Env>, t: nat, n: nat): Value
    requires Sized(g, envs) && t < |g.tensors|
  {
    seq(n, e => Total(g, envs, t, e))
  }

  lemma PartsReduce(g: Graph, full: Env, envs: seq<Env>, t: nat)
    requires Parts(g, full, envs, t)
    ensures AllReduced(g, envs, t, |full[t]|) == full[t]
  {
  }

  /** Bias, ids and weights are there before the chain starts. */
  ghost predicate OperandsBefore(g: Graph, i: nat, c: Chain)
    requires Head(i, c) < |g.nodes|
  {
    && (c.bias ==>
        |At(g, i + 1).src| >= 3 && NotLater(g, i, At(g, i + 1).src[1]) && NotLater(g, i, At(g, i + 1).src[2]))
    && (c.weights ==> |At(g, Head(i, c)).src| >= 2 && NotLater(g, i, At(g, Head(i, c)).src[1]))
  }

  /** Tensors that are there before node `i` runs are held as their states say. */
  ghost predicate HeldAsTold(g: Graph, i: nat, full: Env, envs: seq<Env>) {
    forall t :: 0 <= t < |g.tensors| && NotLater(g, i, t) ==> ToldRight(g, full, envs, t)
  }

  ghost predicate ToldRight(g: Graph, full: Env, envs: seq<Env>, t: nat)
    requires t < |g.tensors|
  {
    && (g.tensors[t].axis == Partial ==> Parts(g, full, envs, t))
    && (g.tensors[t].axis == Mirrored ==> Shared(g, full, envs, t))
  }

  /** The states that the search looks at make the operands ready. */
  lemma StatesMakeReady(g: Graph, i: nat, c: Chain, full: Env, envs: seq<Env>)
    requires ChainAt(g, i, c) && HeldAsTold(g, i, full, envs) && OperandsBefore(g, i, c)
    ensures OperandsReady(g, i, c, full, envs)
  {
    if c.bias {
      var src := At(g, i + 1).src;
      assert ToldRight(g, full, envs, src[1]) && ToldRight(g, full, envs, src[2]);
    }
    if c.weights { assert ToldRight(g, full, envs, At(g, Head(i, c)).src[1]); }
  }

  /** Reducing at the end of the chain gives what the chain computes from the reduced value, for any
      number of devices and of experts, if the other operands are held as their states say. */
  lemma DelayedReduceIsRight(g: Graph, i: nat, c: Chain, full: Env, envs: seq<Env>)
    requires WellFormed(g) && ChainAt(g, i, c) && End(g, i, c) < |g.nodes| && OperandsBefore(g, i, c)
    requires |full| == |g.tensors| && Parts(g, full, envs, g.nodes[i]) && HeldAsTold(g, i, full, envs)
    ensures var r := End(g, i, c);
            var full' := RunNodes(g, full, i + 1, r + 1);
            AllReduced(g, RunAll(g, envs, i + 1, r + 1), g.nodes[r], |full'[g.nodes[r]]|) == full'[g.nodes[r]]
  {
    StatesMakeReady(g, i, c, full, envs);
    ReadyChainIsRight(g, i, c, full, envs);
  }

  lemma ReadyChainIsRight(g: Graph, i: nat, c: Chain, full: Env, envs: seq<Env>)
    requires WellFormed(g) && ChainAt(g, i, c) && End(g, i, c) < |g.nodes|
    requires |full| == |g.tensors| && Parts(g, full, envs, g.nodes[i]) && OperandsReady(g, i, c, full, envs)
    ensures var r := End(g, i, c);
            var full' := RunNodes(g, full, i + 1, r + 1);
            AllReduced(g, RunAll(g, envs, i + 1, r + 1), g.nodes[r], |full'[g.nodes[r]]|) == full'[g.nodes[r]]
  {
    var r := End(g, i, c);
    ChainStarts(g, i, c, full, envs);
    ChainIsLinear(g, i, c, full, envs, r + 1);
    PartsReduce(g, RunNodes(g, full, i + 1, r + 1), RunAll(g, envs, i + 1, r + 1), g.nodes[r]);
  }

  lemma ChainStarts(g: Graph, i: nat, c: Chain, full: Env, envs: seq<Env>)
    requires Head(i, c) < |g.nodes| && |full| == |g.tensors| && Parts(g, full, envs, g.nodes[i])
    requires OperandsReady(g, i, c, full, envs)
    ensures RunHasParts(g, i, c, full, envs, i + 1)
  {
    assert RunAll(g, envs, i + 1, i + 1) == envs;
  }

  // ---- who else reads the nodes of a chain

  /** The source slots of nodes from `lo` to `hi` that name `t`. */
  function Slots(g: Graph, t: nat, lo: nat, hi: nat): nat
    requires lo <= hi <= |g.nodes|
    decreases hi
  {
    if lo == hi then 0 else Slots(g, t, lo, hi - 1) + multiset(At(g, hi - 1).src)[t]
  }

  /** Use counts count source slots, and a view names its root as a source. */
  ghost predicate UsesCounted(g: Graph) {
    && (forall p :: 0 <= p < |g.nodes| ==> At(g, p).uses == Slots(g, g.nodes[p], 0, |g.nodes|))
    && (forall p ::
        0 <= p < |g.nodes| && At(g, p).op == View && At(g, p).viewOf.Some? ==> At(g, p).viewOf.value in At(g, p).src)
  }

  lemma {:induction false} SlotsSplit(g: Graph, t: nat, lo: nat, mid: nat, hi: nat)
    requires lo <= mid <= hi <= |g.nodes|
    ensures Slots(g, t, lo, hi) == Slots(g, t, lo, mid) + Slots(g, t, mid, hi)
    decreases hi
  {
    if mid < hi { SlotsSplit(g, t, lo, mid, hi - 1); }
  }

  lemma {:induction false} SlotsAtLeast(g: Graph, t: nat, lo: nat, hi: nat)
    requires lo <= hi <= |g.nodes| && forall p :: lo <= p < hi ==> t in At(g, p).src
    ensures Slots(g, t, lo, hi) >= hi - lo
    decreases hi
  {
    if lo < hi { SlotsAtLeast(g, t, lo, hi - 1); }
  }

  /** If the nodes from `lo` to `hi` use up the count of `t`, nobody else reads it. */
  lemma NobodyElse(g: Graph, t: nat, lo: nat, hi: nat, q: nat)
    requires lo <= hi <= |g.nodes| && (forall p :: lo <= p < hi ==> t in At(g, p).src)
    requires Slots(g, t, 0, |g.nodes|) == hi - lo && q < |g.nodes| && !(lo <= q < hi)
    ensures t !in At(g, q).src
  {
    SlotsSplit(g, t, 0, lo, |g.nodes|);
    SlotsSplit(g, t, lo, hi, |g.nodes|);
    SlotsAtLeast(g, t, lo, hi);
    if q < lo {
      SlotsSplit(g, t, 0, q, lo);
      SlotsSplit(g, t, q, q + 1, lo);
      assert Slots(g, t, q, q + 1) == multiset(At(g, q).src)[t];
    } else {
      SlotsSplit(g, t, hi, q, |g.nodes|);
      SlotsSplit(g, t, q, q + 1, |g.nodes|);
      assert Slots(g, t, q, q + 1) == multiset(At(g, q).src)[t];
    }
  }

  /** Nodes of a chain from its head up to its end are read by the chain alone, so nobody sees that
      their values are still in parts. The use counts of the nodes before the head are not looked at. */
  lemma FanIsPrivate(g: Graph, i: nat, c: Chain, p: nat, q: nat)
    requires UsesCounted(g) && ChainAt(g, i, c) && c.fan && End(g, i, c) < |g.nodes|
    requires Head(i, c) <= p < End(g, i, c) && q < |g.nodes| && !(Head(i, c) < q <= End(g, i, c))
    ensures g.nodes[p] !in At(g, q).src
  {
    var h := Head(i, c);
    var n := At(g, h).experts;
    if p == h { HeadIsPrivate(g, h, n, q); }
    else if p <= h + n { ViewIsPrivate(g, h, n, p - h - 1, q); }
    else { SumIsPrivate(g, h, n, p - h - n, q); }
  }

  lemma HeadIsPrivate(g: Graph, h: nat, n: nat, q: nat)
    requires UsesCounted(g) && h < |g.nodes| && FanOf(g, h, n) && q < |g.nodes| && !(h < q <= h + n)
    ensures g.nodes[h] !in At(g, q).src
  {
    forall k | h + 1 <= k < h + 1 + n ensures g.nodes[h] in At(g, k).src { assert ViewAt(g, h, k - h - 1); }
    NobodyElse(g, g.nodes[h], h + 1, h + 1 + n, q);
  }

  lemma ViewIsPrivate(g: Graph, h: nat, n: nat, k: nat, q: nat)
    requires UsesCounted(g) && h < |g.nodes| && FanOf(g, h, n) && k < n && q < |g.nodes| && !(h < q <= h + 2 * n - 1)
    ensures g.nodes[h + 1 + k] !in At(g, q).src
  {
    var s := if k == 0 then 1 else k;
    assert ViewAt(g, h, k) && SumAt(g, h, n, s);
    NobodyElse(g, g.nodes[h + 1 + k], h + n + s, h + n + s + 1, q);
  }

  lemma SumIsPrivate(g: Graph, h: nat, n: nat, k: nat, q: nat)
    requires UsesCounted(g) && h < |g.nodes| && FanOf(g, h, n) && 1 <= k < n - 1 && q < |g.nodes|
    requires !(h < q <= h + 2 * n - 1)
    ensures g.nodes[h + n + k] !in At(g, q).src
  {
    assert SumAt(g, h, n, k) && SumAt(g, h, n, k + 1);
    NobodyElse(g, g.nodes[h + n + k], h + n + k + 1, h + n + k + 2, q);
  }

  // ---- when nobody sees parts

  /** Operations have their number of sources. */
  ghost predicate Arities(g: Graph) {
    forall p :: 0 <= p < |g.nodes| ==> ArityOk(At(g, p))
  }

  predicate ArityOk(t: Tensor) {
    match t.op
    case AddId => |t.src| == 3
    case Mul => |t.src| == 2
    case Add => |t.src| == 2
    case View => t.viewOf.Some? && t.src == [t.viewOf.value]
    case _ => true
  }

  /** Nobody but the chain reads the nodes before its end. */
  ghost predicate PrivateChain(g: Graph, i: nat, c: Chain)
    requires Head(i, c) < |g.nodes|
  {
    forall p, q ::
        i <= p < End(g, i, c) && p < |g.nodes| && 0 <= q < |g.nodes| && !(i < q <= End(g, i, c)) ==>
        g.nodes[p] !in At(g, q).src
  }

  /** All uses of node `p` are in the next node. */
  ghost predicate UsedByNext(g: Graph, p: nat)
    requires p + 1 < |g.nodes|
  {
    At(g, p).uses == multiset(At(g, p + 1).src)[g.nodes[p]]
  }

  /** The use counts of the nodes before the head, which the meta backend does not look at. */
  ghost predicate UsesMatch(g: Graph, i: nat, c: Chain)
    requires Head(i, c) < |g.nodes|
  {
    forall p: nat :: i <= p < Head(i, c) ==> UsedByNext(g, p)
  }

  lemma {:induction false} SlotsOfReader(g: Graph, t: nat, lo: nat, hi: nat, q: nat)
    requires lo <= q < hi <= |g.nodes| && t in At(g, q).src
    ensures Slots(g, t, lo, hi) > 0
    decreases hi
  {
    if q < hi - 1 { SlotsOfReader(g, t, lo, hi - 1, q); }
  }

  lemma {:induction false} NoReaderNoSlots(g: Graph, t: nat, lo: nat, hi: nat)
    requires lo <= hi <= |g.nodes| && forall q :: lo <= q < hi ==> t !in At(g, q).src
    ensures Slots(g, t, lo, hi) == 0
    decreases hi
  {
    if lo < hi { NoReaderNoSlots(g, t, lo, hi - 1); }
  }

  /** The use count tells exactly whether only the next node reads a node. */
  lemma OnlyNextReads(g: Graph, p: nat)
    requires UsesCounted(g) && p + 1 < |g.nodes|
    ensures UsedByNext(g, p) <==> forall q :: 0 <= q < |g.nodes| && q != p + 1 ==> g.nodes[p] !in At(g, q).src
  {
    var t, n := g.nodes[p], |g.nodes|;
    SlotsSplit(g, t, 0, p + 1, n);
    SlotsSplit(g, t, p + 1, p + 2, n);
    assert Slots(g, t, p + 1, p + 2) == multiset(At(g, p + 1).src)[t];
    if UsedByNext(g, p) {
      forall q | 0 <= q < n && q != p + 1 ensures t !in At(g, q).src {
        if t in At(g, q).src {
          if q <= p { SlotsOfReader(g, t, 0, p + 1, q); } else { SlotsOfReader(g, t, p + 2, n, q); }
        }
      }
    } else if forall q :: 0 <= q < n && q != p + 1 ==> t !in At(g, q).src {
      NoReaderNoSlots(g, t, 0, p + 1);
      NoReaderNoSlots(g, t, p + 2, n);
    }
  }

  lemma FanReadsHead(g: Graph, h: nat, n: nat, p: nat, q: nat)
    requires WellFormed(g) && Arities(g) && h < |g.nodes| && FanOf(g, h, n) && p < h < q <= h + 2 * n - 1
    ensures g.nodes[p] !in At(g, q).src
  {
    assert ArityOk(At(g, q));
    if q <= h + n { assert ViewAt(g, h, q - h - 1); } else { assert SumAt(g, h, n, q - h - n); }
  }

  /** Within the chain, a node before the head is read by the next one only. */
  lemma ChainReadsNext(g: Graph, i: nat, c: Chain, p: nat, q: nat)
    requires WellFormed(g) && Arities(g) && ChainAt(g, i, c) && OperandsBefore(g, i, c) && End(g, i, c) < |g.nodes|
    requires i <= p < Head(i, c) && i < q <= End(g, i, c) && q != p + 1
    ensures g.nodes[p] !in At(g, q).src
  {
    var h := Head(i, c);
    if q > h { FanReadsHead(g, h, At(g, h).experts, p, q); } else { assert ArityOk(At(g, q)); }
  }

  /** Nobody outside the chain reads its nodes exactly if the use counts of the nodes before the head
      are those of the next nodes. */
  lemma PrivateIfUsesMatch(g: Graph, i: nat, c: Chain)
    requires WellFormed(g) && UsesCounted(g) && Arities(g) && ChainAt(g, i, c) && OperandsBefore(g, i, c)
    requires End(g, i, c) < |g.nodes|
    ensures PrivateChain(g, i, c) <==> UsesMatch(g, i, c)
  {
    if UsesMatch(g, i, c) {
      forall p, q | i <= p < End(g, i, c) && p < |g.nodes| && 0 <= q < |g.nodes| && !(i < q <= End(g, i, c))
        ensures g.nodes[p] !in At(g, q).src
      {
        if p < Head(i, c) {
          assert UsedByNext(g, p);
          OnlyNextReads(g, p);
        } else {
          FanIsPrivate(g, i, c, p, q);
        }
      }
    }
    if PrivateChain(g, i, c) {
      forall p: nat | i <= p < Head(i, c) ensures UsedByNext(g, p) {
        forall q | 0 <= q < |g.nodes| && q != p + 1 ensures g.nodes[p] !in At(g, q).src {
          if i < q <= End(g, i, c) { ChainReadsNext(g, i, c, p, q); }
        }
        OnlyNextReads(g, p);
      }
    }
  }

  /** Tensor `t` is one of the nodes from `i` to `r`. */
  ghost predicate InChain(g: Graph, i: nat, r: nat, t: nat) {
    exists p :: i <= p <= r && p < |g.nodes| && g.nodes[p] == t
  }

  /** Every device gets the all-reduced value of `t`. */
  function Reduce(g: Graph, envs: seq<Env>, t: nat, n: nat): (r: seq<Env>)
    requires Sized(g, envs) && t < |g.tensors|
    ensures Sized(g, r) && |r| == |envs|
  {
    seq(|envs|, j requires 0 <= j < |envs| => envs[j][t := AllReduced(g, envs, t, n)])
  }

  lemma {:induction false} OthersKeep(g: Graph, env: Env, lo: nat, hi: nat, t: nat)
    requires lo <= hi <= |g.nodes| && |env| == |g.tensors| && t < |g.tensors|
    requires forall p :: lo <= p < hi ==> g.nodes[p] != t
    ensures RunNodes(g, env, lo, hi)[t] == env[t]
    decreases hi
  {
    if lo < hi { OthersKeep(g, env, lo, hi - 1, t); }
  }

  /** If nobody else reads the chain, every node after it finds the full value of its end on every
      device, and everything else as it was. */
  lemma LaterReadersSeeFull(g: Graph, i: nat, c: Chain, full: Env, envs: seq<Env>, q: nat, t: nat)
    requires WellFormed(g) && ChainAt(g, i, c) && End(g, i, c) < q < |g.nodes| && t in At(g, q).src
    requires PrivateChain(g, i, c) && OperandsBefore(g, i, c)
    requires |full| == |g.tensors| && Parts(g, full, envs, g.nodes[i]) && HeldAsTold(g, i, full, envs)
    ensures var r := End(g, i, c);
            var full' := RunNodes(g, full, i + 1, r + 1);
            var envs' := Reduce(g, RunAll(g, envs, i + 1, r + 1), g.nodes[r], |full'[g.nodes[r]]|);
            if InChain(g, i, r, t) then Shared(g, full', envs', t)
            else full'[t] == full[t] && forall j :: 0 <= j < |envs| ==> envs'[j][t] == envs[j][t]
  {
    var r := End(g, i, c);
    if InChain(g, i, r, t) {
      var p :| i <= p <= r && p < |g.nodes| && g.nodes[p] == t;
      assert p == r;
      DelayedReduceIsRight(g, i, c, full, envs);
    } else {
      OutsideIsKept(g, i, r, full, envs, t);
    }
  }

  lemma OutsideIsKept(g: Graph, i: nat, r: nat, full: Env, envs: seq<Env>, t: nat)
    requires i <= r < |g.nodes| && |full| == |g.tensors| && Sized(g, envs) && t < |g.tensors| && !InChain(g, i, r, t)
    ensures RunNodes(g, full, i + 1, r + 1)[t] == full[t] && t != g.nodes[r]
    ensures forall j :: 0 <= j < |envs| ==> RunAll(g, envs, i + 1, r + 1)[j][t] == envs[j][t]
  {
    assert forall p :: i <= p <= r ==> g.nodes[p] != t;
    OthersKeep(g, full, i + 1, r + 1, t);
    forall j | 0 <= j < |envs| ensures RunNodes(g, envs[j], i + 1, r + 1)[t] == envs[j][t] {
      OthersKeep(g, envs[j], i + 1, r + 1, t);
    }
  }

  // ---- and what is seen otherwise

  /** All values are zero, except that node `i` holds `x`. */
  function Spike(g: Graph, i: nat, x: int): (env: Env)
    requires i < |g.nodes|
    ensures |env| == |g.tensors|
  {
    seq(|g.tensors|, t => [if t == g.nodes[i] then x else 0])
  }

  /** Two devices, the first of which holds all of the 1. */
  function Uneven(g: Graph, i: nat): (envs: seq<Env>)
    requires i < |g.nodes|
    ensures Sized(g, envs) && |envs| == 2
  {
    [Spike(g, i, 1), Spike(g, i, 0)]
  }

  lemma TotalOfTwo(g: Graph, a: Env, b: Env, t: nat, e: int)
    requires Sized(g, [a, b]) && |a| == |b| == |g.tensors| && t < |g.tensors|
    ensures Total(g, [a, b], t, e) == Get(a[t], e) + Get(b[t], e)
  {
    var envs, one := [a, b], [a];
    assert envs[..1] == one && one[..0] == [];
    assert Total(g, one, t, e) == Get(a[t], e);
  }

  lemma UnevenIsHeld(g: Graph, i: nat)
    requires i < |g.nodes|
    ensures Parts(g, Spike(g, i, 1), Uneven(g, i), g.nodes[i]) && HeldAsTold(g, i, Spike(g, i, 1), Uneven(g, i))
  {
    forall t: nat | t < |g.tensors| ensures Parts(g, Spike(g, i, 1), Uneven(g, i), t) {
      TotalOfTwo(g, Spike(g, i, 1), Spike(g, i, 0), t, 0);
    }
    forall t: nat | t < |g.tensors| && NotLater(g, i, t) ensures ToldRight(g, Spike(g, i, 1), Uneven(g, i), t) {
      assert t != g.nodes[i];
    }
  }

  /** The nodes before the head pass the value on. */
  lemma SpikePasses(g: Graph, i: nat, c: Chain, p: nat, x: int)
    requires WellFormed(g) && ChainAt(g, i, c) && OperandsBefore(g, i, c) && i <= p < Head(i, c)
    ensures RunNodes(g, Spike(g, i, x), i + 1, p + 1)[g.nodes[p]] == [x]
  {
    if p == i + 1 {
      var env := Spike(g, i, x);
      assert RunNodes(g, env, i + 1, i + 1) == env;
      assert RunNodes(g, env, i + 1, i + 2)[g.nodes[p]] == Apply(g, env, p);
      assert Operand(env, At(g, p), 0) == [x] && Operand(env, At(g, p), 1) == [0] && Operand(env, At(g, p), 2) == [0];
    }
  }

  lemma NodeKeeps(g: Graph, env: Env, lo: nat, p: nat, hi: nat)
    requires WellFormed(g) && lo <= p + 1 <= hi <= |g.nodes| && |env| == |g.tensors|
    ensures RunNodes(g, env, lo, hi)[g.nodes[p]] == RunNodes(g, env, lo, p + 1)[g.nodes[p]]
  {
    LaterNodesKeep(g, env, lo, p + 1, hi, g.nodes[p]);
  }

  /** And keep it. */
  lemma SpikeStays(g: Graph, i: nat, c: Chain, p: nat, x: int)
    requires WellFormed(g) && ChainAt(g, i, c) && OperandsBefore(g, i, c) && End(g, i, c) < |g.nodes|
    requires i <= p < Head(i, c)
    ensures RunNodes(g, Spike(g, i, x), i + 1, End(g, i, c) + 1)[g.nodes[p]] == [x]
  {
    SpikePasses(g, i, c, p, x);
    NodeKeeps(g, Spike(g, i, x), i + 1, p, End(g, i, c) + 1);
  }

  /** If a use count does not match, there are a node outside the chain that reads one of its nodes, and
      values with which it does not find the full value on the second device. */
  lemma PartsCanBeRead(g: Graph, i: nat, c: Chain)
    requires WellFormed(g) && UsesCounted(g) && Arities(g) && ChainAt(g, i, c) && OperandsBefore(g, i, c)
    requires End(g, i, c) < |g.nodes|
    requires !UsesMatch(g, i, c)
    ensures Parts(g, Spike(g, i, 1), Uneven(g, i), g.nodes[i]) && HeldAsTold(g, i, Spike(g, i, 1), Uneven(g, i))
    ensures exists p, q :: PartIsRead(g, i, End(g, i, c), p, q)
  {
    UnevenIsHeld(g, i);
    var p, q := OutsideReader(g, i, c);
    SpikeStays(g, i, c, p, 1);
    SpikeStays(g, i, c, p, 0);
    PartShows(g, i, End(g, i, c), p, q);
  }

  lemma OutsideReader(g: Graph, i: nat, c: Chain) returns (p: nat, q: nat)
    requires WellFormed(g) && UsesCounted(g) && Arities(g) && ChainAt(g, i, c) && OperandsBefore(g, i, c)
    requires End(g, i, c) < |g.nodes|
    requires !UsesMatch(g, i, c)
    ensures i <= p < Head(i, c) && q < |g.nodes| && !(i < q <= End(g, i, c)) && g.nodes[p] in At(g, q).src
  {
    p :| i <= p < Head(i, c) && !UsedByNext(g, p);
    OnlyNextReads(g, p);
    q :| 0 <= q < |g.nodes| && q != p + 1 && g.nodes[p] in At(g, q).src;
    if i < q <= End(g, i, c) { ChainReadsNext(g, i, c, p, q); }
  }

  lemma PartShows(g: Graph, i: nat, r: nat, p: nat, q: nat)
    requires WellFormed(g) && i <= p < r < |g.nodes| && q < |g.nodes| && !(i < q <= r) && g.nodes[p] in At(g, q).src
    requires RunNodes(g, Spike(g, i, 1), i + 1, r + 1)[g.nodes[p]] == [1]
    requires RunNodes(g, Spike(g, i, 0), i + 1, r + 1)[g.nodes[p]] == [0]
    ensures PartIsRead(g, i, r, p, q)
  {
    assert RunAll(g, Uneven(g, i), i + 1, r + 1)[1] == RunNodes(g, Spike(g, i, 0), i + 1, r + 1);
  }

  lemma {:induction false} LaterNodesKeep(g: Graph, env: Env, lo: nat, mid: nat, hi: nat, t: nat)
    requires lo <= mid <= hi <= |g.nodes| && |env| == |g.tensors| && t < |g.tensors|
    requires forall p :: mid <= p < hi ==> g.nodes[p] != t
    ensures RunNodes(g, env, lo, hi)[t] == RunNodes(g, env, lo, mid)[t]
    decreases hi
  {
    if mid < hi { LaterNodesKeep(g, env, lo, mid, hi - 1, t); }
  }

  /** Node `q`, which is not in the chain, reads node `p`, and when the chain is done and its end has
      been reduced, the second device holds something else there than the full value. */
  ghost predicate PartIsRead(g: Graph, i: nat, r: nat, p: nat, q: nat) {
    && i <= p < r < |g.nodes| && q < |g.nodes| && !(i < q <= r) && g.nodes[p] in At(g, q).src
    && var full := RunNodes(g, Spike(g, i, 1), i + 1, r + 1);
       var envs := Reduce(g, RunAll(g, Uneven(g, i), i + 1, r + 1), g.nodes[r], |full[g.nodes[r]]|);
       envs[1][g.nodes[p]] != full[g.nodes[p]]
  }

  /** Node 0 is spread in parts, node 1 adds a bias to it, and node 2 reads it, too. */
  predicate ReadEarly(g: Graph) {
    && |g.tensors| == 5 && g.nodes == [2, 3, 4]
    && g.tensors[0].op == None_ && g.tensors[0].src == [] && g.tensors[0].axis == Partial
    && g.tensors[1].op == None_ && g.tensors[1].src == [] && g.tensors[1].axis == Mirrored
    && g.tensors[2].op == Other && g.tensors[2].src == [] && g.tensors[2].experts == 1 && g.tensors[2].uses == 2
    && g.tensors[2].axis == Partial
    && g.tensors[3].op == AddId && g.tensors[3].src == [2, 0, 1] && g.tensors[3].experts == 1 && g.tensors[3].uses == 0
    && g.tensors[4].op == Other && g.tensors[4].src == [2] && g.tensors[4].experts == 1 && g.tensors[4].uses == 0
  }

  lemma ReadEarlyExists() returns (g: Graph)
    ensures ReadEarly(g)
  {
    var leaf := Tensor(None_, [], None, 0, false, 1, 1, false, Mirrored);
    g := RawGraph(
      [ leaf.(axis := Partial), leaf, Tensor(Other, [], None, 0, false, 1, 2, false, Partial),
        Tensor(AddId, [2, 0, 1], None, 0, false, 1, 0, false, Mirrored),
        Tensor(Other, [2], None, 0, false, 1, 0, false, Mirrored) ],
      [2, 3, 4]);
  }

  /** It happens: node 0 is left in parts although node 2 reads it, because a bias follows it. */
  lemma EarlyReaderSeesPart(g: Graph)
    requires ReadEarly(g)
    ensures WellFormed(g) && UsesCounted(g) && ChainAt(g, 0, Chain(true, false, false)) && At(g, 0).axis == Partial
    ensures End(g, 0, Chain(true, false, false)) == 1 && PartIsRead(g, 0, 1, 0, 2)
  {
    var c := Chain(true, false, false);
    EarlyIsCounted(g);
    SpikeStays(g, 0, c, 0, 1);
    SpikeStays(g, 0, c, 0, 0);
    PartShows(g, 0, 1, 0, 2);
  }

  lemma EarlyIsCounted(g: Graph)
    requires ReadEarly(g)
    ensures WellFormed(g) && UsesCounted(g)
    ensures ChainAt(g, 0, Chain(true, false, false)) && End(g, 0, Chain(true, false, false)) == 1
    ensures OperandsBefore(g, 0, Chain(true, false, false)) && At(g, 2).src == [2]
  {
    assert At(g, 0).src == [] && At(g, 1).src == [2, 0, 1] && At(g, 2).src == [2];
    EarlySlots(g, 0);
    EarlySlots(g, 1);
    EarlySlots(g, 2);
  }

  lemma EarlySlots(g: Graph, p: nat)
    requires ReadEarly(g) && p < 3
    ensures At(g, p).uses == Slots(g, g.nodes[p], 0, 3)
  {
    var t := g.nodes[p];
    assert At(g, 1).src == [2, 0, 1] && At(g, 2).src == [2];
    assert Slots(g, t, 0, 1) == 0;
    assert Slots(g, t, 0, 2) == multiset([2, 0, 1])[t];
    assert Slots(g, t, 0, 3) == multiset([2, 0, 1])[t] + multiset([2])[t];
  }

  // ---- the cuts

  /** A node the meta backend passes over: a view of host memory that no node computes. */
  predicate Skipped(g: Graph, i: nat)
    requires i < |g.nodes|
  {
    At(g, i).viewOf.Some? && g.tensors[At(g, i).viewOf.value].op == None_ && g.tensors[At(g, i).viewOf.value].host
  }

  /** The subgraph from `start` to `end` was closed by the chain of node `i`. */
  ghost predicate CutAt(g: Graph, start: nat, i: nat, end: nat) {
    && start <= i <= end < |g.nodes| && !Skipped(g, i) && (At(g, i).axis == Partial || i + 1 == |g.nodes|)
    && (forall p :: start <= p < i && !Skipped(g, p) ==> At(g, p).axis != Partial)
    && (exists c :: ChainAt(g, i, c) && End(g, i, c) == end)
  }

  ghost predicate Cut(g: Graph, start: nat, end: nat) {
    exists i :: CutAt(g, start, i, end)
  }

  /** Where subgraph `k` starts. */
  function NextStart(ends: seq<nat>, k: nat): nat
    requires k <= |ends|
  {
    if k == 0 then 0 else ends[k - 1] + 1
  }

  ghost predicate CutHere(g: Graph, offsets: seq<nat>, ends: seq<nat>, k: nat)
    requires k < |offsets| == |ends|
  {
    offsets[k] == NextStart(ends, k) && Cut(g, offsets[k], ends[k])
  }

  lemma AppendCut(g: Graph, offsets: seq<nat>, ends: seq<nat>, n: nat, i: nat, end: nat)
    requires Cuts(g, offsets, ends, n) && CutAt(g, n, i, end)
    ensures Cuts(g, offsets + [n], ends + [end], end + 1)
  {
    var offsets', ends' := offsets + [n], ends + [end];
    forall k | 0 <= k < |offsets'| ensures CutHere(g, offsets', ends', k) {
      if k < |offsets| { assert CutHere(g, offsets, ends, k); }
    }
  }

  /** `offsets` and `ends` delimit subgraphs that follow each other from node 0 up to `n`. */
  ghost predicate Cuts(g: Graph, offsets: seq<nat>, ends: seq<nat>, n: nat) {
    && |offsets| == |ends|
    && (forall k :: 0 <= k < |offsets| ==> CutHere(g, offsets, ends, k))
    && n == NextStart(ends, |ends|)
  }

  /** Operations other than views do not work on host memory in place. */
  ghost predicate OnlyViewsSkipped(g: Graph) {
    forall p :: 0 <= p < |g.nodes| && Skipped(g, p) ==> At(g, p).op == View
  }

  /** Cuts the graph. The assertion at the end, that the subgraphs cover it, holds unless the last node
      is passed over. */
  method CutSubgraphs(g: Graph) returns (offsets: seq<nat>, covered: bool, ghost ends: seq<nat>)
    requires WellFormed(g) && OnlyViewsSkipped(g)
    ensures exists n: nat :: Cuts(g, offsets, ends, n) && (covered <==> n == |g.nodes|)
    ensures covered <==> |g.nodes| == 0 || !Skipped(g, |g.nodes| - 1)
  {
    offsets, ends := [], [];
    var iStart, i := 0, 0;
    while i < |g.nodes|
      invariant iStart <= i <= |g.nodes| && Cuts(g, offsets, ends, iStart)
      invariant forall p :: iStart <= p < i && !Skipped(g, p) ==> At(g, p).axis != Partial
      invariant iStart < i ==> i < |g.nodes| || Skipped(g, i - 1)
      invariant iStart == i > 0 ==> !Skipped(g, i - 1)
    {
      if Skipped(g, i) || (At(g, i).axis != Partial && i + 1 < |g.nodes|) {
        i := i + 1;
        continue;
      }
      var idr;
      ghost var c, pastEnd;
      idr, c, pastEnd := GetDelayed(g, i);
      ChainEndsUnskipped(g, i, c);
      assert CutAt(g, iStart, i, idr);
      AppendCut(g, offsets, ends, iStart, i, idr);
      offsets, ends := offsets + [iStart], ends + [idr];
      iStart := idr + 1;
      i := idr + 1;
    }
    covered := iStart == |g.nodes|;
  }

  lemma ChainEndsUnskipped(g: Graph, i: nat, c: Chain)
    requires WellFormed(g) && OnlyViewsSkipped(g) && ChainAt(g, i, c) && End(g, i, c) < |g.nodes| && !Skipped(g, i)
    ensures !Skipped(g, End(g, i, c))
  {
    var h := Head(i, c);
    if c.fan { assert SumAt(g, h, At(g, h).experts, At(g, h).experts - 1); }
  }
}
