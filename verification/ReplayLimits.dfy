/** Graphs that a recorded plan is used for although it does not serve them, and outputs whose memory is
    given away. */
module ReplayLimits {
  import opened Wrappers
  import opened FreeList
  import opened Chunks
  import opened DynTallocrs
  import opened Graphs
  import opened Executions
  import opened ExactPlans
  import opened PlannerSpec
  import opened PlannerWalk
  import opened PlannerRuns
  import opened Replay

  const PACKED := Layout(0, [], [])

  /** An elementwise operation on one byte that may write over its source. */
  predicate Plain(x: Tensor, src: seq<nat>) {
    && x.src == src && x.slots == (if src == [] then [] else [0]) && |src| <= 1
    && x.viewSrc == None && !x.isNone && x.canInplace && !x.input && !x.output && !x.external && x.layout == PACKED
    && x.size == [1]
  }

  /** Three nodes; node 1 reads node 0 and node 2 reads node `last`. */
  predicate Chain(g: Graph, last: nat) {
    && |g.tensors| == 3 && g.nodes == [0, 1, 2] && g.leafs == [] && last < 2
    && Plain(g.tensors[0], []) && Plain(g.tensors[1], [0]) && Plain(g.tensors[2], [last])
  }

  function PlainTensor(src: seq<nat>): (x: Tensor)
    requires |src| <= 1
    ensures Plain(x, src)
  {
    Tensor(src, if src == [] then [] else [0], None, false, true, false, false, false, PACKED, [1])
  }

  lemma ChainIsWellFormed(g: Graph, last: nat)
    requires Chain(g, last)
    ensures WellFormed(g)
  {
    assert g.nodes[0] == 0 && g.nodes[1] == 1;
    assert NodeBefore(g, 0, 1) && NodeBefore(g, last, 2);
    forall i | 0 <= i < 3 ensures NodeWellFormed(g, i) {}
  }

  /** All three nodes in the same place. */
  function OnePlace(a: Addr): Plan {
    [Place(0, a), Place(0, a), Place(0, a)]
  }

  // ---- the planner's plan for the chain in which node 2 reads node 1

  const THREE := [0, 0, 0]

  predicate ChainSteps(steps: seq<Step>) {
    && |steps| == 12
    && steps[0] == SeeNode(0, 0) && steps[1] == SeeNode(1, 0) && steps[2] == SeeSource(0, 0)
    && steps[3] == SeeNode(2, 0)
    && steps[4] == SeeSource(1, 0) && steps[5] == Give(0, 0) && steps[6] == Give(0, 0) && steps[7] == Give(1, 0)
    && steps[8] == Pass(0) && steps[9] == Give(1, 0) && steps[10] == Give(2, 0) && steps[11] == Pass(1)
  }

  lemma CountsOfChain(g: Graph)
    requires Chain(g, 1)
    ensures CountAll(g, THREE, 3) == [SeeNode(0, 0), SeeNode(1, 0), SeeSource(0, 0), SeeNode(2, 0), SeeSource(1, 0)]
  {
    assert Src(g, 0) == [] && Src(g, 1) == [0] && Src(g, 2) == [1];
    assert CountAll(g, THREE, 1) == [SeeNode(0, 0)];
    assert CountSteps(g, 1, 0, 1) == [SeeNode(1, 0), SeeSource(0, 0)];
    assert CountAll(g, THREE, 2) == [SeeNode(0, 0), SeeNode(1, 0), SeeSource(0, 0)];
    assert CountSteps(g, 2, 0, 1) == [SeeNode(2, 0), SeeSource(1, 0)];
  }

  /** Node `i` is placed after its only source, and passes it. */
  lemma StepsOfNode(g: Graph, i: nat)
    requires Chain(g, 1) && 0 < i < 3
    ensures NodeSteps(g, i, 0, |Src(g, i)|) == [Give(i - 1, 0), Give(i, 0), Pass(i - 1)]
  {
    assert Src(g, i) == [i - 1] && g.nodes[i] == i;
    assert ParentSteps(g, i, 0, 1) == [Give(i - 1, 0)];
  }

  lemma WalkOfChain(g: Graph)
    requires Chain(g, 1)
    ensures WalkSteps(g, THREE, 3) == [Give(0, 0), Give(0, 0), Give(1, 0), Pass(0), Give(1, 0), Give(2, 0), Pass(1)]
  {
    StepsOfNode(g, 1);
    StepsOfNode(g, 2);
    assert WalkSteps(g, THREE, 1) == [Give(0, 0)];
    assert WalkSteps(g, THREE, 2) == [Give(0, 0), Give(0, 0), Give(1, 0), Pass(0)];
  }

  lemma StepsOfChain(g: Graph)
    requires Chain(g, 1)
    ensures ChainSteps(PlanSteps(g, THREE, []))
  {
    CountsOfChain(g);
    WalkOfChain(g);
  }

  const ONE_USE := BLANK.(nChildren := 1)

  /** The records after counting. */
  predicate IsCounted(hn: seq<HashNode>) {
    |hn| == 3 && hn[0] == ONE_USE && hn[1] == ONE_USE && hn[2] == BLANK
  }

  /** However the planner runs, node 1 takes over the memory of node 0, and node 2 that of node 1. */
  lemma ChainSharesOnePlace(g: Graph, al: Buffers, views: seq<seq<View>>, s: PState)
    requires Chain(g, 1) && Runs(g, al, Empty(g, views), PlanSteps(g, THREE, []), s)
    ensures |s.hn| == 3 && PlanOf(s.hn) == OnePlace(s.hn[0].addr)
  {
    StepsOfChain(g);
    var steps := PlanSteps(g, THREE, []);
    var trace := TraceOf(g, al, Empty(g, views), steps, s);
    ChainIsCounted(g, al, trace, steps);
    ChainIsPlaced(g, al, trace, steps);
  }

  lemma ChainIsCounted(g: Graph, al: Buffers, trace: seq<PState>, steps: seq<Step>)
    requires Chain(g, 1) && ChainSteps(steps) && |trace| == 13 && trace[0].hn == [BLANK, BLANK, BLANK]
    requires forall k :: 0 <= k < 12 ==> TraceStep(g, al, trace, steps, k)
    ensures IsCounted(trace[5].hn)
  {
    assert TraceStep(g, al, trace, steps, 0) && TraceStep(g, al, trace, steps, 1) && TraceStep(g, al, trace, steps, 2);
    assert TraceStep(g, al, trace, steps, 3) && TraceStep(g, al, trace, steps, 4);
    assert trace[2].hn == [BLANK, BLANK, BLANK];
    assert trace[3].hn == [ONE_USE, BLANK, BLANK];
  }

  function Given(h: HashNode, a: Addr): HashNode {
    h.(bufferId := 0, addr := a, held := true)
  }

  lemma FirstTwoArePlaced(g: Graph, al: Buffers, trace: seq<PState>, steps: seq<Step>) returns (a: Addr)
    requires Chain(g, 1) && ChainSteps(steps) && |trace| == 13 && IsCounted(trace[5].hn)
    requires forall k :: 5 <= k < 10 ==> TraceStep(g, al, trace, steps, k)
    ensures |trace[10].hn| == 3 && PlaceOf(trace[10].hn[0]) == Place(0, a)
    ensures trace[10].hn[1] == Given(ONE_USE, a) && trace[10].hn[2] == BLANK
  {
    assert TraceStep(g, al, trace, steps, 5) && TraceStep(g, al, trace, steps, 6);
    a := trace[6].hn[0].addr;
    assert trace[7].hn == [Given(ONE_USE, a), ONE_USE, BLANK];
    TakesOver(g, trace[7], 1);
    assert TraceStep(g, al, trace, steps, 7) && TraceStep(g, al, trace, steps, 8) && TraceStep(g, al, trace, steps, 9);
  }

  lemma ChainIsPlaced(g: Graph, al: Buffers, trace: seq<PState>, steps: seq<Step>)
    requires Chain(g, 1) && ChainSteps(steps) && |trace| == 13 && IsCounted(trace[5].hn)
    requires forall k :: 0 <= k < 12 ==> TraceStep(g, al, trace, steps, k)
    ensures |trace[12].hn| == 3 && PlanOf(trace[12].hn) == OnePlace(trace[12].hn[0].addr)
  {
    var a := FirstTwoArePlaced(g, al, trace, steps);
    TakesOver(g, trace[10], 2);
    assert TraceStep(g, al, trace, steps, 10) && TraceStep(g, al, trace, steps, 11);
  }

  /** Node `t` finds the node before it reusable. */
  lemma TakesOver(g: Graph, s: PState, t: nat)
    requires Chain(g, 1) && |s.hn| == 3 && 0 < t < 3 && !s.hn[t].held
    requires s.hn[t - 1].held && s.hn[t - 1].nChildren == 1 && s.hn[t - 1].nViews == 0
    ensures ReusedBy(g, s, t) == Some(t - 1)
  {
    assert g.tensors[t].src == [t - 1] && g.tensors[t].src[0] == t - 1;
    assert Reusable(g, s.hn, t, t - 1);
  }

  // ---- and it can be made

  /** One chunk, the first `n` bytes of which are in use. */
  function Region(n: nat, buffer: BufferKind): seq<View> {
    [ServedView(View([Block(0, NewCapacity(0, n, buffer.maxChunkSize))], 0, map[]), 0, n)]
  }

  const FIRST := Given(BLANK, Addr(0, 0))

  const LEFT := FIRST.(held := false)

  /** With one buffer, in which each node needs `n` bytes, the planner goes through these states. */
  predicate ChainTrace(trace: seq<PState>, r: seq<View>) {
    && |trace| == 13
    && trace[0] == PState([BLANK, BLANK, BLANK], [[]]) && trace[1] == trace[0] && trace[2] == trace[0]
    && trace[3] == PState([ONE_USE, BLANK, BLANK], [[]]) && trace[4] == trace[3]
    && trace[5] == PState([ONE_USE, ONE_USE, BLANK], [[]])
    && trace[6] == PState([FIRST.(nChildren := 1), ONE_USE, BLANK], [r]) && trace[7] == trace[6]
    && trace[8] == PState([LEFT.(nChildren := 1), FIRST.(nChildren := 1), BLANK], [r])
    && trace[9] == PState([LEFT, FIRST.(nChildren := 1), BLANK], [r]) && trace[10] == trace[9]
    && trace[11] == PState([LEFT, LEFT.(nChildren := 1), FIRST], [r])
    && trace[12] == PState([LEFT, LEFT, FIRST], [r])
  }

  lemma ChainTraceExists(r: seq<View>) returns (trace: seq<PState>)
    ensures ChainTrace(trace, r)
  {
    var counted :=
      [ PState([BLANK, BLANK, BLANK], [[]]), PState([BLANK, BLANK, BLANK], [[]]),
        PState([BLANK, BLANK, BLANK], [[]]), PState([ONE_USE, BLANK, BLANK], [[]]),
        PState([ONE_USE, BLANK, BLANK], [[]]), PState([ONE_USE, ONE_USE, BLANK], [[]]) ];
    var placed :=
      [ PState([FIRST.(nChildren := 1), ONE_USE, BLANK], [r]),
        PState([FIRST.(nChildren := 1), ONE_USE, BLANK], [r]),
        PState([LEFT.(nChildren := 1), FIRST.(nChildren := 1), BLANK], [r]),
        PState([LEFT, FIRST.(nChildren := 1), BLANK], [r]),
        PState([LEFT, FIRST.(nChildren := 1), BLANK], [r]),
        PState([LEFT, LEFT.(nChildren := 1), FIRST], [r]),
        PState([LEFT, LEFT, FIRST], [r]) ];
    trace := counted + placed;
  }

  /** The planner does not stop at the chain. */
  lemma ChainCanBePlanned(g: Graph, al: Buffers)
    requires Chain(g, 1) && |al| == 1 && SizesOk(g, al)
    ensures exists s :: Runs(g, al, Empty(g, [[]]), PlanSteps(g, THREE, []), s)
    ensures !Stops(g, al, Empty(g, [[]]), PlanSteps(g, THREE, []))
  {
    StepsOfChain(g);
    AlignUpIsLeast(Size(g, 0, 0), al[0].alignment);
    var steps, n := PlanSteps(g, THREE, []), Reserved(g, al, 0, 0);
    var trace := ChainTraceExists(Region(n, al[0]));
    forall k | 0 <= k < 12 ensures TraceStep(g, al, trace, steps, k) { ChainStepIsMade(g, al, trace, steps, n, k); }
    assert Empty(g, [[]]) == trace[0];
    TraceRuns(g, al, trace, steps);
    RunsDoNotStop(g, al, trace[0], steps, trace[12]);
  }

  lemma ChainCountIsMade(g: Graph, al: Buffers, trace: seq<PState>, steps: seq<Step>, n: nat, k: nat)
    requires Chain(g, 1) && |al| == 1 && ChainSteps(steps) && k < 5 && ChainTrace(trace, Region(n, al[0]))
    ensures TraceStep(g, al, trace, steps, k)
  {
  }

  lemma ChainStepIsMade(g: Graph, al: Buffers, trace: seq<PState>, steps: seq<Step>, n: nat, k: nat)
    requires Chain(g, 1) && |al| == 1 && ChainSteps(steps) && k < 12
    requires n == Reserved(g, al, 0, 0) && 0 < n <= SIZE_MAX / 2 && ChainTrace(trace, Region(n, al[0]))
    ensures TraceStep(g, al, trace, steps, k)
  {
    if k < 5 { ChainCountIsMade(g, al, trace, steps, n, k); }
    else if k == 5 { FirstIsPlaced(g, al, trace[5], trace[6], n); }
    else if k == 7 { NextIsPlaced(g, al, trace[7], trace[8], n, 1); }
    else if k == 10 { NextIsPlaced(g, al, trace[10], trace[11], n, 2); }
  }

  lemma ZeroIsAligned(x: nat, alignment: nat)
    requires x == 0
    ensures Multiple(x, alignment)
  {
    assert x == 0 * alignment;
  }

  lemma RegionIsHandedOut(n: nat, buffer: BufferKind)
    requires n <= SIZE_MAX / 2
    ensures HandedOut([], Region(n, buffer), Addr(0, 0), n, buffer) && !OutOfMemory([], n)
  {
    ZeroIsAligned(0, buffer.alignment);
  }

  lemma FirstIsPlaced(g: Graph, al: Buffers, s: PState, s': PState, n: nat)
    requires Chain(g, 1) && |al| == 1 && s == PState([ONE_USE, ONE_USE, BLANK], [[]]) && n == Reserved(g, al, 0, 0)
    requires s' == PState([FIRST.(nChildren := 1), ONE_USE, BLANK], [Region(n, al[0])]) && n <= SIZE_MAX / 2
    ensures StepRel(g, al, s, s', Give(0, 0))
  {
    assert InplaceParent(g, s.hn, 0) == None && !Skipped(g, s.hn, 0);
    RegionIsHandedOut(n, al[0]);
  }

  lemma NextIsPlaced(g: Graph, al: Buffers, s: PState, s': PState, n: nat, t: nat)
    requires Chain(g, 1) && |al| == 1 && 0 < t < 3 && |s.hn| == 3 && |s.views| == 1 && s'.views == s.views
    requires s.hn[t - 1] == FIRST.(nChildren := 1) && s.hn[t].(nChildren := 0) == BLANK
    requires n == Reserved(g, al, 0, 0) > 0
    requires s'.hn == s.hn[t := FIRST.(nChildren := s.hn[t].nChildren)][t - 1 := LEFT.(nChildren := 1)]
    ensures StepRel(g, al, s, s', Give(t, 0))
  {
    TakesOver(g, s, t);
    assert Size(g, t, 0) == Size(g, 0, 0) == Size(g, t - 1, 0);
  }

  // ---- what the comparison misses

  /** The record of the chain may be used for every graph of three nodes with the same sizes. */
  lemma ChainRecordIsUsable(p: PlanRecord, g: Graph, plan: Plan, h: Graph)
    requires Chain(g, 1) && p.Records(g, plan) && plan == OnePlace(plan[0].addr)
    requires |h.tensors| == 3 && h.nodes == [0, 1, 2] && h.leafs == []
    requires forall t :: 0 <= t < 3 ==> h.tensors[t].size == [1]
    requires h.tensors[0].slots == [] && h.tensors[1].slots == [0] && h.tensors[2].slots == [0]
    requires SlotsInOrder(h)
    ensures p.Usable(h)
  {
    forall i | 0 <= i < 3 ensures p.NodeFits(h, i) {
      assert RecordsNode(g, plan, i, p.nodeAllocs[i]);
      if i > 0 { assert SlotOf(g, i, 0) == 0 && SlotOf(h, i, 0) == 0; }
    }
  }

  /** In one place, node 1 writes over what node 2 reads. */
  lemma OnePlaceInterferes(h: Graph, a: Addr)
    requires Chain(h, 0)
    ensures LeafsApart(h) && !NonInterfering(h, OnePlace(a))
  {
    assert h.nodes[0] == 0 && h.nodes[1] == 1 && Writes(h, 1) && Src(h, 2) == [0];
    assert NodeBefore(h, 0, 2);
    assert Root(h, Src(h, 2)[0]) == 0;
    assert Uses(h, 2, 0) && NeededAfter(h, 0, 1) && Placed(h, 0, 2);
    assert Size(h, 0, 0) == 1 && Size(h, 1, 0) == 1 && !TensorsApart(h, OnePlace(a), 0, 1);
    assert !LaterSafe(h, OnePlace(a), 1);
    assert !NodeHarmless(h, OnePlace(a), 1);
  }

  /** Whatever the record hands out for a graph of three nodes is the one place of the chain. */
  lemma ChainRecordHandsOutOnePlace(p: PlanRecord, g: Graph, plan: Plan, h: Graph, places: seq<Option<Place>>)
    requires Chain(g, 1) && p.Records(g, plan) && plan == OnePlace(plan[0].addr)
    requires Chain(h, 0) && SlotsInOrder(h) && p.Usable(h) && Assigned(h, p.Met(h, |h.leafs|, |h.nodes|), places)
    ensures PlanHandedOut(places) == plan
  {
    ChainIsWellFormed(g, 1);
    forall t | 0 <= t < 3 ensures places[t] == Some(plan[0]) {
      ChainIsPlacedInTheEnd(h, t);
      HandedOutIsBacked(p, g, plan, h, places, t);
    }
  }

  lemma ChainIsPlacedInTheEnd(h: Graph, t: nat)
    requires Chain(h, 0) && t < 3
    ensures Placed(h, t, |h.nodes|)
  {
    assert h.nodes[t] == t && NodeBefore(h, t, 3);
  }

  /** The comparison does not look at who reads whom: whatever plan is made for a node 2 that reads
      node 1, its record is used for a node 2 that reads node 0, which finds the value of node 1 where it
      is sent. */
  lemma TopologyIsNotCompared(p: PlanRecord, g: Graph, h: Graph, al: Buffers, views: seq<seq<View>>, s: PState,
                              places: seq<Option<Place>>)
    requires Chain(g, 1) && Chain(h, 0) && Runs(g, al, Empty(g, views), PlanSteps(g, THREE, []), s)
    requires |s.hn| == 3 && p.Records(g, PlanOf(s.hn))
    ensures WellFormed(h) && SlotsInOrder(h) && p.Usable(h)
    ensures Assigned(h, p.Met(h, |h.leafs|, |h.nodes|), places) ==> !ServesHandedOut(h, places)
  {
    ChainIsWellFormed(h, 0);
    ChainSharesOnePlace(g, al, views, s);
    ChainRecordIsUsable(p, g, PlanOf(s.hn), h);
    if Assigned(h, p.Met(h, |h.leafs|, |h.nodes|), places) {
      ChainRecordHandsOutOnePlace(p, g, PlanOf(s.hn), h, places);
      OnePlaceInterferes(h, s.hn[0].addr);
      ServesIffNonInterfering(h, PlanHandedOut(places));
    }
  }

  lemma OnePlaceIsSound(g: Graph, a: Addr)
    requires Chain(g, 1)
    ensures NonInterfering(g, OnePlace(a)) && InitialApart(g, OnePlace(a))
  {
    assert Src(g, 0) == [] && Src(g, 1) == [0] && Src(g, 2) == [1];
    LeftPositive(g, 0, 0, 0, 1, 0);
    LeftPositive(g, 1, 0, 0, 2, 0);
    assert forall k :: 1 < k ==> !Uses(g, k, 0);
    assert forall k :: 2 < k ==> !Uses(g, k, 1) && !Uses(g, k, 0);
    forall i | 0 <= i < 3 ensures NodeHarmless(g, OnePlace(a), i) {
      forall j | 0 <= j < |Src(g, i)| ensures OperandSafe(g, OnePlace(a), i, j) {}
      assert i == 2 ==> !NeededAfter(g, 1, 2) && !NeededAfter(g, 0, 2);
      assert i == 1 ==> !NeededAfter(g, 0, 1);
    }
  }

  /** The chain with another operation or another layout in node 1. */
  predicate Altered(g: Graph, h: Graph, inPlace: bool, layout: Layout) {
    h.nodes == g.nodes && h.leafs == g.leafs && |g.tensors| == 3 &&
    h.tensors == g.tensors[1 := g.tensors[1].(canInplace := inPlace, layout := layout)]
  }

  /** Nor does it look at operations and layouts: the plan is also used when node 1 cannot work in
      place any more, or has another layout than the operand it is computed over; it serves such a
      graph exactly if nothing has changed in these respects. */
  lemma OperationsAreNotCompared(p: PlanRecord, g: Graph, h: Graph, inPlace: bool, layout: Layout,
                                 al: Buffers, views: seq<seq<View>>, s: PState)
    requires Chain(g, 1) && Altered(g, h, inPlace, layout) && Runs(g, al, Empty(g, views), PlanSteps(g, THREE, []), s)
    requires |s.hn| == 3 && p.Records(g, PlanOf(s.hn))
    ensures WellFormed(h) && SameShape(g, h) && SlotsInOrder(h) && p.Usable(h)
    ensures RunsLikePrivate(h, PlanOf(s.hn)) <==> inPlace && layout == PACKED
  {
    var plan := PlanOf(s.hn);
    ChainIsWellFormed(g, 1);
    AlteredIsWellFormed(g, h, inPlace, layout);
    ChainSharesOnePlace(g, al, views, s);
    ChainRecordIsUsable(p, g, plan, h);
    OnePlaceIsSound(g, s.hn[0].addr);
    ReplayIsSound(g, h, plan);
    AlteredKeepsInPlace(g, h, inPlace, layout, s.hn[0].addr);
  }

  lemma AlteredIsWellFormed(g: Graph, h: Graph, inPlace: bool, layout: Layout)
    requires Chain(g, 1) && WellFormed(g) && Altered(g, h, inPlace, layout)
    ensures WellFormed(h) && SameShape(g, h)
  {
    assert SameShape(g, h);
    forall i | 0 <= i < |h.nodes| ensures NodeWellFormed(h, i) {
      assert NodeWellFormed(g, i) && Src(h, i) == Src(g, i);
      forall j | 0 <= j < |Src(h, i)| ensures SourceWellFormed(h, Src(h, i)[j], i) {
        assert SourceWellFormed(g, Src(g, i)[j], i);
        assert NodeBefore(g, Src(g, i)[j], i) == NodeBefore(h, Src(h, i)[j], i);
      }
    }
  }

  lemma AlteredKeepsInPlace(g: Graph, h: Graph, inPlace: bool, layout: Layout, a: Addr)
    requires Chain(g, 1) && Altered(g, h, inPlace, layout)
    ensures KeepsInPlace(h, OnePlace(a)) <==> inPlace && layout == PACKED
  {
    assert Src(h, 0) == [] && Src(h, 1) == [0] && Src(h, 2) == [1] && Writes(h, 1) && Writes(h, 2);
    assert SlotKeepsInPlace(h, OnePlace(a), 1, 0) <==> inPlace && layout == PACKED;
    assert SlotKeepsInPlace(h, OnePlace(a), 2, 0) <==> layout == PACKED;
  }

  /** Leafs that no node reads are not compared either: one of them may grow into its neighbour. */
  lemma UnreadLeafsAreNotCompared(p: PlanRecord, g: Graph, h: Graph)
    requires g == TwoLeafs(1) && h == TwoLeafs(2) && p.Records(g, [At(0), At(1)])
    ensures SameShape(g, h) && SlotsInOrder(h) && p.Usable(h)
    ensures Serves(g, [At(0), At(1)]) && !Serves(h, [At(0), At(1)])
  {
    LeafsAreServed(g, 1);
    LeafsAreServed(h, 2);
  }

  function TwoLeafs(size: nat): Graph {
    RawGraph([Leaf(size), Leaf(1)], [], [0, 1])
  }

  lemma LeafsOverlap(h: Graph, size: nat)
    requires h == TwoLeafs(size) && size > 0
    ensures InitialApart(h, [At(0), At(1)]) <==> size == 1
  {
    assert h.leafs[0] == 0 && h.leafs[1] == 1;
    assert Placed(h, 0, 0) && Placed(h, 1, 0);
    assert TensorsApart(h, [At(0), At(1)], 0, 1) <==> size == 1;
    assert TensorsApart(h, [At(0), At(1)], 1, 0) <==> size == 1;
  }

  lemma LeafsAreServed(h: Graph, size: nat)
    requires h == TwoLeafs(size) && size > 0
    ensures Serves(h, [At(0), At(1)]) <==> size == 1
  {
    LeafsOverlap(h, size);
    ServesIffNonInterfering(h, [At(0), At(1)]);
  }

  function Leaf(size: nat): Tensor {
    Tensor([], [], None, true, false, false, false, false, PACKED, [size])
  }

  function At(offset: nat): Place {
    Place(0, Addr(0, offset))
  }

  // ---- outputs that are views

  /** An output that is a view keeps its memory to the end exactly when the tensor it looks at is an
      output itself or somebody leaves one of its views unread. */
  lemma OutputViewIsKept(g: Graph, k: nat)
    requires WellFormed(g) && k < |g.nodes| && g.tensors[g.nodes[k]].output
    requires IsView(g, g.nodes[k]) && !g.tensors[g.nodes[k]].isNone
    ensures Persistent(g, Root(g, g.nodes[k])) <==>
            g.tensors[Root(g, g.nodes[k])].output || exists m :: UnreadView(g, m, Root(g, g.nodes[k]))
  {
    var r := Root(g, g.nodes[k]);
    AllOpenAtStart(g, r, |g.nodes|);
    OpenPositive(g, r, k, |g.nodes|, 0, 0);
  }

  /** What is kept ends with the value it should have, in every plan that serves the graph. */
  lemma KeptOutputEndsRight(g: Graph, plan: Plan, ops: Ops, s: Store, init: Contents, k: nat)
    requires WellFormed(g) && k < |g.nodes| && IsView(g, g.nodes[k]) && !g.tensors[g.nodes[k]].isNone
    requires g.tensors[Root(g, g.nodes[k])].output || exists m :: UnreadView(g, m, Root(g, g.nodes[k]))
    requires Serves(g, plan) && FitsPlan(g, plan, ops) && Loaded(g, plan, s, init)
    ensures Read(g, plan, RunFlat(g, plan, ops, s, |g.nodes|), Root(g, g.nodes[k]))
              == RunPrivate(g, ops, init, |g.nodes|)(Root(g, g.nodes[k]))
  {
    var r := Root(g, g.nodes[k]);
    assert NodeWellFormed(g, k);
    if !g.tensors[r].external { PlacedGrows(g, r, k, |g.nodes|); }
    assert SameEnd(g, plan, ops, s, init);
  }

  /** Node 0, an output view of it, and a node that reads the view. */
  predicate Viewed(g: Graph) {
    && |g.tensors| == 3 && g.nodes == [0, 1, 2] && g.leafs == []
    && Plain(g.tensors[0], []) && Plain(g.tensors[2], [1])
    && g.tensors[1] == PlainTensor([0]).(viewSrc := Some(0), output := true)
  }

  lemma ViewedExists() returns (g: Graph)
    ensures Viewed(g)
  {
    g := RawGraph(
      [ PlainTensor([]), PlainTensor([0]).(viewSrc := Some(0), output := true), PlainTensor([1]) ],
      [0, 1, 2], []);
  }

  /** A declared output can lose its memory: here the planner releases it after node 2. */
  lemma OutputViewIsReleased(g: Graph)
    requires Viewed(g)
    ensures WellFormed(g) && g.tensors[1].output && Root(g, 1) == 0
    ensures Placed(g, 0, 3) && !Persistent(g, 0)
  {
    assert g.nodes[0] == 0 && g.nodes[1] == 1;
    assert NodeBefore(g, 0, 1) && NodeBefore(g, 1, 2) && NodeBefore(g, 0, 3);
    forall i | 0 <= i < 3 ensures NodeWellFormed(g, i) {}
    assert Src(g, 2)[0] == 1;
    LeftPositive(g, 1, 0, 0, 2, 0);
    assert Src(g, 1)[0] == 0;
    LeftPositive(g, 0, 0, 0, 1, 0);
  }
}
