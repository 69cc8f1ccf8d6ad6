/** Computation graphs as the memory planner sees them, and how long each tensor is needed. */
module Graphs {
  import opened Wrappers

  /** Type, extents and strides. */
  datatype Layout = Layout(kind: nat, ne: seq<int>, nb: seq<int>)

  datatype Tensor = Tensor(
    src: seq<nat>,          // the sources that are present, in slot order
    slots: seq<nat>,        // the slots they are in
    viewSrc: Option<nat>,   // the tensor whose memory this one is a window of
    isNone: bool,           // the operation is NONE
    canInplace: bool,       // the operation may write over one of its sources
    input: bool,
    output: bool,
    external: bool,         // memory was assigned before planning
    layout: Layout,
    size: seq<nat>)         // bytes needed in each buffer

  datatype RawGraph = RawGraph(tensors: seq<Tensor>, nodes: seq<nat>, leafs: seq<nat>) {
    ghost predicate InRange() {
      && (forall i :: 0 <= i < |nodes| ==> nodes[i] < |tensors|)
      && (forall i :: 0 <= i < |leafs| ==> leafs[i] < |tensors|)
      && (forall t, j :: 0 <= t < |tensors| && 0 <= j < |tensors[t].src| ==> tensors[t].src[j] < |tensors|)
      && (forall t :: 0 <= t < |tensors| && tensors[t].viewSrc.Some? ==> tensors[t].viewSrc.value < |tensors|)
    }
  }

  /** Every index that occurs in a graph names a tensor. */
  type Graph = g: RawGraph | g.InRange() witness RawGraph([], [], [])

  predicate IsView(g: Graph, t: nat)
    requires t < |g.tensors|
  {
    g.tensors[t].viewSrc.Some?
  }

  /** The tensor that holds the memory of `t`. */
  function Root(g: Graph, t: nat): (r: nat)
    requires t < |g.tensors|
    ensures r < |g.tensors|
  {
    if IsView(g, t) then g.tensors[t].viewSrc.value else t
  }

  /** The planner is responsible for the memory of `t`. */
  predicate Owned(g: Graph, t: nat) {
    t < |g.tensors| && !IsView(g, t) && !g.tensors[t].external
  }

  function Src(g: Graph, i: nat): (s: seq<nat>)
    requires i < |g.nodes|
    ensures forall j :: 0 <= j < |s| ==> s[j] < |g.tensors|
  {
    g.tensors[g.nodes[i]].src
  }

  // ---- who uses what

  /** Source slots that name `t`, from slot `j` of node `i` onwards. */
  function Left(g: Graph, t: nat, i: nat, j: nat): nat
    decreases |g.nodes| - i, if i < |g.nodes| then |Src(g, i)| - j else 0
  {
    if i >= |g.nodes| then 0
    else if j >= |Src(g, i)| then Left(g, t, i + 1, 0)
    else (if Src(g, i)[j] == t then 1 else 0) + Left(g, t, i, j + 1)
  }

  function Slots(g: Graph, t: nat): nat {
    Left(g, t, 0, 0)
  }

  /** Node `v` is a view of `r` that counts as a use of it. */
  predicate CountedView(g: Graph, v: nat, r: nat) {
    v < |g.tensors| && g.tensors[v].viewSrc == Some(r) && !g.tensors[v].isNone
  }

  /** All uses of the view lie before slot `j` of node `i`. */
  predicate Closed(g: Graph, v: nat, i: nat, j: nat) {
    Slots(g, v) > 0 && Left(g, v, i, j) == 0
  }

  /** Counted views of `r` among the first `k` nodes. */
  function ViewsBelow(g: Graph, r: nat, k: nat): nat
    requires k <= |g.nodes|
  {
    if k == 0 then 0 else ViewsBelow(g, r, k - 1) + if CountedView(g, g.nodes[k - 1], r) then 1 else 0
  }

  /** Those of them that are not closed before slot `j` of node `i`. */
  function OpenBelow(g: Graph, r: nat, k: nat, i: nat, j: nat): nat
    requires k <= |g.nodes|
  {
    if k == 0 then 0
    else
      OpenBelow(g, r, k - 1, i, j)
      + if CountedView(g, g.nodes[k - 1], r) && !Closed(g, g.nodes[k - 1], i, j) then 1 else 0
  }

  function Open(g: Graph, r: nat, i: nat, j: nat): nat {
    OpenBelow(g, r, |g.nodes|, i, j)
  }

  /** Somebody reads `r` or looks at it through a view. */
  predicate Consumed(g: Graph, r: nat) {
    Slots(g, r) > 0 || ViewsBelow(g, r, |g.nodes|) > 0
  }

  /** `r` was used and all its uses lie before slot `j` of node `i`. */
  predicate Gone(g: Graph, r: nat, i: nat, j: nat) {
    Consumed(g, r) && Left(g, r, i, j) == 0 && Open(g, r, i, j) == 0
  }

  // ---- lifetimes, stated on the graph alone

  /** Node `k` reads the memory of `r`, directly or through a view, or is itself a view of it. */
  ghost predicate Uses(g: Graph, k: nat, r: nat) {
    && k < |g.nodes|
    && (CountedView(g, g.nodes[k], r) || exists j :: 0 <= j < |Src(g, k)| && Root(g, Src(g, k)[j]) == r)
  }

  /** A view of `r` that nobody reads. */
  ghost predicate UnreadView(g: Graph, k: nat, r: nat) {
    k < |g.nodes| && CountedView(g, g.nodes[k], r) && Slots(g, g.nodes[k]) == 0
  }

  /** The contents of `r` survive the whole run: it is a declared output, or nobody consumes it, or
      it is visible through a view that nobody consumes. */
  ghost predicate Persistent(g: Graph, r: nat) {
    r < |g.tensors| && (g.tensors[r].output || !Consumed(g, r) || exists k :: UnreadView(g, k, r))
  }

  /** The contents of `r` matter after node `i` has run. */
  ghost predicate NeededAfter(g: Graph, r: nat, i: int) {
    Persistent(g, r) || exists k :: i < k && Uses(g, k, r)
  }

  /** Allocated before any node runs. */
  ghost predicate Initial(g: Graph, r: nat) {
    && r < |g.tensors|
    && (r in g.leafs || (g.tensors[r].input && (r in g.nodes || Slots(g, r) > 0)))
  }

  /** Allocated by the time the first `i` nodes have been placed. */
  ghost predicate Placed(g: Graph, r: nat, i: nat) {
    Owned(g, r) && (Initial(g, r) || NodeBefore(g, r, i))
  }

  /** One of the first `i` nodes is `r`. */
  ghost predicate NodeBefore(g: Graph, r: nat, i: nat) {
    exists k :: 0 <= k < i && k < |g.nodes| && g.nodes[k] == r
  }

  ghost predicate Ready(g: Graph, r: nat, i: nat) {
    && r < |g.tensors|
    && (g.tensors[r].external || (Owned(g, r) && if r in g.nodes then NodeBefore(g, r, i) else Initial(g, r)))
  }

  // ---- well-formed graphs

  /** What the planner relies on: nodes are distinct and ordered so that sources come first, views
      are flattened to their root, and a view used as a source is itself an earlier node. Inputs
      and leafs carry no operation. */
  ghost predicate WellFormed(g: Graph) {
    && (forall i, k :: 0 <= i < k < |g.nodes| ==> g.nodes[i] != g.nodes[k])
    && (forall t :: 0 <= t < |g.tensors| ==> t !in g.tensors[t].src)
    && (forall t :: 0 <= t < |g.tensors| && IsView(g, t) ==> !IsView(g, Root(g, t)))
    && (forall t :: 0 <= t < |g.tensors| && (g.tensors[t].input || t in g.leafs) ==> g.tensors[t].isNone)
    && (forall t :: 0 <= t < |g.tensors| && g.tensors[t].isNone ==> !g.tensors[t].canInplace)
    && (forall i :: 0 <= i < |g.nodes| ==> NodeWellFormed(g, i))
  }

  ghost predicate NodeWellFormed(g: Graph, i: nat)
    requires i < |g.nodes|
  {
    && (forall j :: 0 <= j < |Src(g, i)| ==> SourceWellFormed(g, Src(g, i)[j], i))
    && (IsView(g, g.nodes[i]) && !g.tensors[g.nodes[i]].isNone ==> Ready(g, Root(g, g.nodes[i]), i))
  }

  ghost predicate SourceWellFormed(g: Graph, s: nat, i: nat)
    requires s < |g.tensors|
  {
    if IsView(g, s)
    then g.tensors[Root(g, s)].external || (NodeBefore(g, s, i) && !g.tensors[s].isNone)
    else Ready(g, s, i)
  }

  // ---- counting lemmas

  lemma {:induction false} LeftAdvance(g: Graph, t: nat, i: nat, j: nat)
    requires i < |g.nodes| && j < |Src(g, i)|
    ensures Left(g, t, i, j) == Left(g, t, i, j + 1) + if Src(g, i)[j] == t then 1 else 0
    ensures j + 1 == |Src(g, i)| ==> Left(g, t, i, j + 1) == Left(g, t, i + 1, 0)
  {
  }

  lemma {:induction false} LeftShrinks(g: Graph, t: nat, i: nat, j: nat, k: nat, m: nat)
    requires i < k || (i == k && j <= m)
    ensures Left(g, t, k, m) <= Left(g, t, i, j)
    decreases |g.nodes| - i, if i < |g.nodes| then |Src(g, i)| - j else 0
  {
    if i < |g.nodes| {
      if j >= |Src(g, i)| {
        if i < k { LeftShrinks(g, t, i + 1, 0, k, m); }
      } else if i < k || j < m {
        LeftShrinks(g, t, i, j + 1, k, m);
      }
    }
  }

  /** A slot of node `k` names `t`, so `t` is still counted before node `k`. */
  lemma {:induction false} LeftPositive(g: Graph, t: nat, i: nat, j: nat, k: nat, m: nat)
    requires k < |g.nodes| && m < |Src(g, k)| && Src(g, k)[m] == t
    requires i < k || (i == k && j <= m)
    ensures Left(g, t, i, j) > 0
  {
    LeftShrinks(g, t, i, j, k, m);
  }

  /** Some slot names `t` whenever it is still counted. */
  lemma {:induction false} SlotWitness(g: Graph, t: nat, i: nat, j: nat) returns (k: nat, m: nat)
    requires Left(g, t, i, j) > 0
    ensures k < |g.nodes| && m < |Src(g, k)| && Src(g, k)[m] == t && (i < k || (i == k && j <= m))
    decreases |g.nodes| - i, if i < |g.nodes| then |Src(g, i)| - j else 0
  {
    if j >= |Src(g, i)| { k, m := SlotWitness(g, t, i + 1, 0); }
    else if Src(g, i)[j] == t { k, m := i, j; }
    else { k, m := SlotWitness(g, t, i, j + 1); }
  }

  /** No slot before node `i` names `t`, so nothing has been consumed yet. */
  lemma {:induction false} NothingConsumed(g: Graph, t: nat, i: nat, j: nat, k: nat)
    requires k <= |g.nodes| && (i < k || (i == k && j == 0))
    requires forall m, n :: 0 <= m < k && 0 <= n < |Src(g, m)| ==> Src(g, m)[n] != t
    ensures Left(g, t, i, j) == Left(g, t, k, 0)
    decreases |g.nodes| - i, if i < |g.nodes| then |Src(g, i)| - j else 0
  {
    if i < k {
      if j >= |Src(g, i)| { NothingConsumed(g, t, i + 1, 0, k); }
      else {
        assert Src(g, i)[j] != t;
        NothingConsumed(g, t, i, j + 1, k);
      }
    }
  }

  /** A tensor that is placed by its own node, and a view of owned memory, is not read before it. */
  lemma SourcesComeFirst(g: Graph, t: nat, m: nat)
    requires WellFormed(g) && m < |g.nodes| && g.nodes[m] == t
    requires Owned(g, Root(g, t))
    ensures forall i: nat :: i <= m + 1 ==> Left(g, t, i, 0) == Slots(g, t)
  {
    forall i: nat | i <= m + 1 ensures Left(g, t, i, 0) == Slots(g, t) {
      forall k, n | 0 <= k < i && 0 <= n < |Src(g, k)| ensures Src(g, k)[n] != t {
        assert NodeWellFormed(g, k);
        assert SourceWellFormed(g, Src(g, k)[n], k);
      }
      NothingConsumed(g, t, 0, 0, i);
    }
  }

  lemma {:induction false} OpenPositive(g: Graph, r: nat, m: nat, k: nat, i: nat, j: nat)
    requires m < k <= |g.nodes| && CountedView(g, g.nodes[m], r) && !Closed(g, g.nodes[m], i, j)
    ensures OpenBelow(g, r, k, i, j) > 0
  {
    if m < k - 1 { OpenPositive(g, r, m, k - 1, i, j); }
  }

  /** Some view is open whenever the count says so. */
  lemma {:induction false} OpenWitness(g: Graph, r: nat, k: nat, i: nat, j: nat) returns (m: nat)
    requires k <= |g.nodes| && OpenBelow(g, r, k, i, j) > 0
    ensures m < k && CountedView(g, g.nodes[m], r) && !Closed(g, g.nodes[m], i, j)
  {
    if CountedView(g, g.nodes[k - 1], r) && !Closed(g, g.nodes[k - 1], i, j) { m := k - 1; }
    else { m := OpenWitness(g, r, k - 1, i, j); }
  }

  /** At the start every counted view is open. */
  lemma {:induction false} AllOpenAtStart(g: Graph, r: nat, k: nat)
    requires k <= |g.nodes|
    ensures OpenBelow(g, r, k, 0, 0) == ViewsBelow(g, r, k)
  {
    if k > 0 { AllOpenAtStart(g, r, k - 1); }
  }

  /** The slot being passed closes a view of `r`. */
  predicate Closes(g: Graph, r: nat, i: nat, j: nat)
    requires i < |g.nodes| && j < |Src(g, i)|
  {
    CountedView(g, Src(g, i)[j], r) && Left(g, Src(g, i)[j], i, j) == 1
  }

  lemma {:induction false} OpenAdvance(g: Graph, r: nat, k: nat, i: nat, j: nat)
    requires WellFormed(g) && i < |g.nodes| && j < |Src(g, i)| && k <= |g.nodes|
    ensures OpenBelow(g, r, k, i, j) == OpenBelow(g, r, k, i, j + 1)
              + if Closes(g, r, i, j) && Src(g, i)[j] in g.nodes[..k] then 1 else 0
  {
    var p := Src(g, i)[j];
    if k > 0 {
      OpenAdvance(g, r, k - 1, i, j);
      var v := g.nodes[k - 1];
      assert g.nodes[..k] == g.nodes[..k - 1] + [v];
      LeftAdvance(g, v, i, j);
      LeftShrinks(g, v, 0, 0, i, j);
      if v == p { assert p !in g.nodes[..k - 1]; }
    }
  }

  /** Passing the end of a node's slots changes no count. */
  lemma {:induction false} NextNode(g: Graph, r: nat, k: nat, i: nat)
    requires i < |g.nodes| && k <= |g.nodes|
    ensures Left(g, r, i, |Src(g, i)|) == Left(g, r, i + 1, 0)
    ensures OpenBelow(g, r, k, i, |Src(g, i)|) == OpenBelow(g, r, k, i + 1, 0)
  {
    if k > 0 {
      NextNode(g, r, k - 1, i);
      assert Left(g, g.nodes[k - 1], i, |Src(g, i)|) == Left(g, g.nodes[k - 1], i + 1, 0);
    }
  }

  lemma {:induction false} OpenShrinks(g: Graph, r: nat, k: nat, i: nat, j: nat, i': nat, j': nat)
    requires k <= |g.nodes| && (i < i' || (i == i' && j <= j'))
    ensures OpenBelow(g, r, k, i', j') <= OpenBelow(g, r, k, i, j)
  {
    if k > 0 {
      OpenShrinks(g, r, k - 1, i, j, i', j');
      LeftShrinks(g, g.nodes[k - 1], i, j, i', j');
    }
  }

  lemma GoneStaysGone(g: Graph, r: nat, i: nat, j: nat, i': nat, j': nat)
    requires i < i' || (i == i' && j <= j')
    ensures Gone(g, r, i, j) ==> Gone(g, r, i', j')
  {
    LeftShrinks(g, r, i, j, i', j');
    OpenShrinks(g, r, |g.nodes|, i, j, i', j');
  }

  // ---- what is still needed is not gone

  lemma NeededIsNotGone(g: Graph, r: nat, i: nat)
    requires WellFormed(g) && Owned(g, r) && NeededAfter(g, r, i as int - 1)
    ensures g.tensors[r].output || !Gone(g, r, i, 0)
  {
    if exists k :: UnreadView(g, k, r) {
      var k :| UnreadView(g, k, r);
      OpenPositive(g, r, k, |g.nodes|, i, 0);
    } else if exists k :: i - 1 < k && Uses(g, k, r) {
      var k :| i - 1 < k && Uses(g, k, r);
      UseIsNotGone(g, r, k, i);
    }
  }

  lemma UseIsNotGone(g: Graph, r: nat, k: nat, i: nat)
    requires WellFormed(g) && Owned(g, r) && i <= k && Uses(g, k, r)
    ensures !Gone(g, r, i, 0)
  {
    if CountedView(g, g.nodes[k], r) {
      SourcesComeFirst(g, g.nodes[k], k);
      OpenPositive(g, r, k, |g.nodes|, i, 0);
    } else {
      var j :| 0 <= j < |Src(g, k)| && Root(g, Src(g, k)[j]) == r;
      var s := Src(g, k)[j];
      LeftPositive(g, s, i, 0, k, j);
      if s != r {
        assert NodeWellFormed(g, k) && SourceWellFormed(g, s, k);
        var m :| 0 <= m < k && m < |g.nodes| && g.nodes[m] == s;
        OpenPositive(g, r, m, |g.nodes|, i, 0);
      }
    }
  }

  /** A tensor is not gone when its own node is placed. */
  lemma NotGoneWhenPlaced(g: Graph, t: nat, m: nat)
    requires WellFormed(g) && m < |g.nodes| && g.nodes[m] == t && Owned(g, t)
    ensures !Gone(g, t, m, 0)
  {
    SourcesComeFirst(g, t, m);
    if ViewsBelow(g, t, |g.nodes|) > 0 {
      AllOpenAtStart(g, t, |g.nodes|);
      var k := OpenWitness(g, t, |g.nodes|, 0, 0);
      var v := g.nodes[k];
      assert NodeWellFormed(g, k);
      SourcesComeFirst(g, v, k);
      OpenPositive(g, t, k, |g.nodes|, m, 0);
    }
  }

  /** After the last node, exactly the tensors that are not persistent are gone. */
  lemma GoneAtEnd(g: Graph, r: nat)
    requires WellFormed(g) && Owned(g, r) && !g.tensors[r].output
    ensures Gone(g, r, |g.nodes|, 0) <==> !Persistent(g, r)
  {
    if Open(g, r, |g.nodes|, 0) > 0 {
      var k := OpenWitness(g, r, |g.nodes|, |g.nodes|, 0);
      assert UnreadView(g, k, r);
    }
    if exists k :: UnreadView(g, k, r) {
      var k :| UnreadView(g, k, r);
      OpenPositive(g, r, k, |g.nodes|, |g.nodes|, 0);
    }
  }
}
