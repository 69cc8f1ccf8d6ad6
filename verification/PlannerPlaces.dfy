/** Which buffer the planner puts each tensor in, and whose memory a node takes over, stated on the graph. */
module PlannerPlaces {
  import opened Wrappers
  import opened DynTallocrs
  import opened Graphs
  import opened Executions
  import opened PlannerSpec
  import opened PlannerWalk
  import opened PlannerRuns
  import opened PlannerSuccess

  // ---- where tensors belong

  /** Slot `j` of node `i` is the only slot from node `i` on that names its source. */
  ghost predicate OnlyRead(g: Graph, i: nat, j: nat) {
    i < |g.nodes| && j < |Src(g, i)| &&
    forall k: nat, m: nat ::
        i <= k < |g.nodes| && m < |Src(g, k)| && Src(g, k)[m] == Src(g, i)[j] ==> k == i && m == j
  }

  /** Some slot before node `i` names `v`, and none from it on. */
  ghost predicate ReadBefore(g: Graph, v: nat, i: nat) {
    && (exists k: nat, m: nat :: k < i && k < |g.nodes| && m < |Src(g, k)| && Src(g, k)[m] == v)
    && (forall k: nat, m: nat :: i <= k < |g.nodes| && m < |Src(g, k)| ==> Src(g, k)[m] != v)
  }

  /** All views of `p` have been read when node `i` is reached. */
  ghost predicate ViewsRead(g: Graph, p: nat, i: nat) {
    forall k :: 0 <= k < |g.nodes| && CountedView(g, g.nodes[k], p) ==> ReadBefore(g, g.nodes[k], i)
  }

  /** Node `i` may work in place, and the source in slot `j` has no other use left and is laid out alike. */
  ghost predicate MayTake(g: Graph, i: nat, j: nat) {
    i < |g.nodes| && j < |Src(g, i)| &&
    var t, p := g.nodes[i], Src(g, i)[j];
    && g.tensors[t].canInplace && Owned(g, p) && !g.tensors[p].output && g.tensors[p].layout == g.tensors[t].layout
    && OnlyRead(g, i, j) && ViewsRead(g, p, i)
  }

  /** Node `i` has the place of its first source of that kind, or a place in buffer `b`. */
  ghost predicate NodePlanned(g: Graph, hn: seq<HashNode>, i: nat, b: nat)
    requires i < |g.nodes| && |hn| == |g.tensors|
  {
    var h := hn[g.nodes[i]];
    && (forall j: nat :: MayTake(g, i, j) && (forall l: nat :: l < j ==> !MayTake(g, i, l)) ==>
          PlaceOf(h) == PlaceOf(hn[Src(g, i)[j]]))
    && ((forall j :: 0 <= j < |Src(g, i)| ==> !MayTake(g, i, j)) ==> h.bufferId == b)
  }

  /** Node `k` is `t` or reads it. */
  predicate Meets(g: Graph, t: nat, k: nat) {
    k < |g.nodes| && (g.nodes[k] == t || t in Src(g, k))
  }

  ghost predicate FirstMeets(g: Graph, t: nat, k: nat) {
    Meets(g, t, k) && forall l: nat :: l < k ==> !Meets(g, t, l)
  }

  ghost predicate FirstLeaf(g: Graph, t: nat, i: nat) {
    i < |g.leafs| && g.leafs[i] == t && t !in g.leafs[..i]
  }

  /** The first `n` leafs are where their buffers say. */
  ghost predicate LeafsPlanned(g: Graph, hn: seq<HashNode>, lb: seq<nat>, n: nat) {
    && |hn| == |g.tensors| && n <= |g.leafs| == |lb|
    && forall t: nat, i: nat :: Owned(g, t) && i < n && FirstLeaf(g, t, i) ==> hn[t].bufferId == lb[i]
  }

  /** `t` is an input but no leaf. */
  predicate LooseInput(g: Graph, t: nat) {
    Owned(g, t) && g.tensors[t].input && t !in g.leafs
  }

  /** Inputs are in the buffer of the first node that is or reads them, as far as slot `j` of node `i`. */
  ghost predicate InputsPlanned(g: Graph, hn: seq<HashNode>, nb: seq<nat>, nodes: nat, i: nat, j: nat) {
    && |hn| == |g.tensors| && |g.nodes| == |nb|
    && forall t: nat, k: nat :: LooseInput(g, t) && FirstMeets(g, t, k) && MetBefore(g, t, k, nodes, i, j) ==>
         hn[t].bufferId == nb[k]
  }

  /** Node `k` lies before node `i`, or is node `i`, and `t` is met by what has been counted of it. */
  predicate MetBefore(g: Graph, t: nat, k: nat, nodes: nat, i: nat, j: nat) {
    k < i || (k == i && k < |g.nodes| && j <= |Src(g, k)|
              && ((nodes == i + 1 && t == g.nodes[k]) || t in Src(g, k)[..j]))
  }

  ghost predicate NodesPlanned(g: Graph, hn: seq<HashNode>, nb: seq<nat>, n: nat) {
    && |hn| == |g.tensors| && |g.nodes| == |nb|
    && forall i: nat :: i < n && i < |g.nodes| && Computed(g, g.nodes[i]) ==> NodePlanned(g, hn, i, nb[i])
  }

  /** `t` is neither an input nor a leaf. */
  predicate Computed(g: Graph, t: nat) {
    Owned(g, t) && !g.tensors[t].input && t !in g.leafs
  }

  /** Every tensor is where the buffers of leafs and nodes say. */
  ghost predicate InItsBuffer(g: Graph, hn: seq<HashNode>, nb: seq<nat>, lb: seq<nat>) {
    LeafsPlanned(g, hn, lb, |g.leafs|) && NodesPlanned(g, hn, nb, |g.nodes|)
    && |nb| == |g.nodes|
    && forall t: nat, k: nat :: LooseInput(g, t) && FirstMeets(g, t, k) ==> hn[t].bufferId == nb[k]
  }

  // ---- counts and slots

  lemma {:induction false} EarlierSlots(g: Graph, t: nat, i: nat, j: nat)
    requires i < |g.nodes| && j <= |Src(g, i)| && t !in Src(g, i)[..j]
    ensures Left(g, t, i, 0) == Left(g, t, i, j)
  {
    if j > 0 {
      EarlierSlots(g, t, i, j - 1);
      assert Src(g, i)[..j] == Src(g, i)[..j - 1] + [Src(g, i)[j - 1]];
    }
  }

  lemma OnlyReadIsCount(g: Graph, i: nat, j: nat)
    requires i < |g.nodes| && j < |Src(g, i)|
    ensures OnlyRead(g, i, j) <==> Left(g, Src(g, i)[j], i, 0) == 1
  {
    var p := Src(g, i)[j];
    if OnlyRead(g, i, j) {
      EarlierSlots(g, p, i, j);
      LeftAdvance(g, p, i, j);
      if Left(g, p, i, j + 1) > 0 {
        var k, m := SlotWitness(g, p, i, j + 1);
        assert false;
      }
    } else {
      var k: nat, m: nat :| i <= k < |g.nodes| && m < |Src(g, k)| && Src(g, k)[m] == p && !(k == i && m == j);
      if k == i && m < j { TwoSlots(g, p, i, m, i, j); } else { TwoSlots(g, p, i, j, k, m); }
      LeftShrinks(g, p, i, 0, i, if k == i && m < j then m else j);
    }
  }

  lemma TwoSlots(g: Graph, p: nat, i: nat, j: nat, k: nat, m: nat)
    requires i < |g.nodes| && j < |Src(g, i)| && Src(g, i)[j] == p
    requires k < |g.nodes| && m < |Src(g, k)| && Src(g, k)[m] == p && (i < k || (i == k && j < m))
    ensures Left(g, p, i, j) > 1
  {
    LeftAdvance(g, p, i, j);
    LeftPositive(g, p, i, j + 1, k, m);
  }

  lemma ClosedIsRead(g: Graph, v: nat, i: nat)
    ensures Closed(g, v, i, 0) <==> ReadBefore(g, v, i)
  {
    if Closed(g, v, i, 0) {
      var k, m := SlotWitness(g, v, 0, 0);
      forall k: nat, m: nat | i <= k < |g.nodes| && m < |Src(g, k)| ensures Src(g, k)[m] != v {
        if Src(g, k)[m] == v { LeftPositive(g, v, i, 0, k, m); }
      }
      assert k < i;
    }
    if ReadBefore(g, v, i) {
      var k: nat, m: nat :| k < i && k < |g.nodes| && m < |Src(g, k)| && Src(g, k)[m] == v;
      LeftPositive(g, v, 0, 0, k, m);
      if Left(g, v, i, 0) > 0 {
        var l, n := SlotWitness(g, v, i, 0);
        assert false;
      }
    }
  }

  lemma ViewsReadIsCount(g: Graph, p: nat, i: nat)
    ensures ViewsRead(g, p, i) <==> Open(g, p, i, 0) == 0
  {
    forall v: nat ensures Closed(g, v, i, 0) <==> ReadBefore(g, v, i) { ClosedIsRead(g, v, i); }
    if Open(g, p, i, 0) > 0 {
      var k := OpenWitness(g, p, |g.nodes|, i, 0);
      assert !ReadBefore(g, g.nodes[k], i);
    }
    forall k: nat | k < |g.nodes| && CountedView(g, g.nodes[k], p) && !Closed(g, g.nodes[k], i, 0)
      ensures Open(g, p, i, 0) > 0
    {
      OpenPositive(g, p, k, |g.nodes|, i, 0);
    }
  }

  /** At its turn a node takes over exactly the sources that it may take. */
  lemma ReusableIsMayTake(g: Graph, al: Buffers, s: PState, i: nat, j: nat)
    requires WellFormed(g) && i < |g.nodes| && j < |Src(g, i)| && Walk(g, al, s, i, i, 0, None)
    requires g.tensors[g.nodes[i]].canInplace
    ensures Reusable(g, s.hn, g.nodes[i], Src(g, i)[j]) <==> MayTake(g, i, j)
  {
    var p := Src(g, i)[j];
    OnlyReadIsCount(g, i, j);
    ViewsReadIsCount(g, p, i);
    if Owned(g, p) { SourceIsSkipped(g, al, s, i, j); }
    if s.hn[p].held { assert Holds(g, al, s, p); }
  }

  lemma {:induction false} FirstIsFirst(g: Graph, hn: seq<HashNode>, t: nat, src: seq<nat>, j: nat)
    requires t < |g.tensors| == |hn| && forall k :: 0 <= k < |src| ==> src[k] < |hn|
    requires j <= |src| && forall k :: 0 <= k < j ==> !Reusable(g, hn, t, src[k])
    ensures FirstReusable(g, hn, t, src) == FirstReusable(g, hn, t, src[j..])
  {
    if j == 0 {
      assert src[0..] == src;
    } else {
      FirstIsFirst(g, hn, t, src[1..], j - 1);
      assert src[1..][j - 1..] == src[j..];
    }
  }

  /** What the node takes over at its turn. */
  lemma TakenOverIsFirst(g: Graph, al: Buffers, s: PState, i: nat)
    requires WellFormed(g) && i < |g.nodes| && Walk(g, al, s, i, i, 0, None)
    ensures forall j: nat :: MayTake(g, i, j) && (forall l: nat :: l < j ==> !MayTake(g, i, l)) ==>
              InplaceParent(g, s.hn, g.nodes[i]) == Some(Src(g, i)[j])
    ensures (forall j :: 0 <= j < |Src(g, i)| ==> !MayTake(g, i, j)) ==> InplaceParent(g, s.hn, g.nodes[i]) == None
  {
    var t, src := g.nodes[i], Src(g, i);
    if g.tensors[t].canInplace {
      forall j | 0 <= j < |src| ensures Reusable(g, s.hn, t, src[j]) <==> MayTake(g, i, j) {
        ReusableIsMayTake(g, al, s, i, j);
      }
      forall j: nat | MayTake(g, i, j) && forall l: nat :: l < j ==> !MayTake(g, i, l)
        ensures InplaceParent(g, s.hn, t) == Some(src[j])
      {
        FirstIsFirst(g, s.hn, t, src, j);
      }
      if forall j :: 0 <= j < |src| ==> !MayTake(g, i, j) { FirstIsFirst(g, s.hn, t, src, |src|); }
    }
  }

  // ---- the free lists stay in order

  ghost predicate Backed(s: PState) {
    exists top: nat :: AllViewsFit(s, top)
  }

  lemma BackedIsSound(s: PState)
    requires Backed(s)
    ensures AllSound(s)
  {
    var top: nat :| AllViewsFit(s, top);
    forall b | 0 <= b < |s.views| ensures SoundViews(s.views[b]) { FittingIsSound(s.views[b], top); }
  }

  lemma GivingKeepsBacked(g: Graph, al: Buffers, s: PState, s': PState, t: nat, b: nat)
    requires Mem(g, al, s) && Backed(s) && SizesOk(g, al) && t < |g.tensors| && b < |al|
    requires AllocateRel(g, al, s, s', t, b)
    ensures Backed(s') && AllSound(s')
  {
    var top: nat :| AllViewsFit(s, top);
    var most := Reserved(g, al, t, b);
    forall c | 0 <= c < |s'.views| ensures ViewsFit(s'.views[c], top + most) {
      BufferStillFits(g, al, s, s', t, b, top, most, c);
    }
    assert AllViewsFit(s', top + most);
    BackedIsSound(s');
  }

  lemma PassingKeepsBacked(g: Graph, al: Buffers, s: PState, s': PState, p: nat)
    requires Mem(g, al, s) && Backed(s) && SizesOk(g, al) && p < |g.tensors| && SlotRel(g, al, s, s', p)
    ensures Backed(s') && Mem(g, al, s')
  {
    var mid := PState(CrossOff(g, s.hn, p), s.views);
    CrossingKeepsMem(g, al, s, mid);
    var top: nat :| AllViewsFit(s, top);
    assert AllViewsFit(mid, top);
    var r := ToFree(g, mid.hn, p);
    if r.Some? {
      FreeingFits(g, al, mid, s', r.value, top);
      BackedIsSound(s');
      FreeKeepsMem(g, al, mid, s', r.value);
    }
  }

  lemma FreeingFits(g: Graph, al: Buffers, s: PState, s': PState, t: nat, top: nat)
    requires Mem(g, al, s) && AllViewsFit(s, top) && t < |g.tensors| && s.hn[t].held && FreeRel(g, al, s, s', t)
    ensures AllViewsFit(s', top)
  {
    if !g.tensors[t].output {
      var b := s.hn[t].bufferId;
      assert Holds(g, al, s, t);
      GivingBackFits(s.views[b], s'.views[b], s.hn[t].addr, 0, Reserved(g, al, t, b), top);
    }
  }

  // ---- programs in parts

  /** What every step keeps holds in the end. */
  lemma {:induction false} KeptToTheEnd(holds: nat -> bool, n: nat)
    requires holds(0) && forall j: nat :: j < n && holds(j) ==> holds(j + 1)
    ensures holds(n)
  {
    if n > 0 { KeptToTheEnd(holds, n - 1); }
  }

  function Joined(parts: seq<seq<Step>>): seq<Step> {
    if parts == [] then [] else Joined(parts[..|parts| - 1]) + parts[|parts| - 1]
  }

  /** Part `i` leads from state `i` to state `i + 1`. */
  ghost predicate PartRuns(g: Graph, al: Buffers, states: seq<PState>, parts: seq<seq<Step>>, i: nat)
    requires i + 1 < |states| && i < |parts|
  {
    Runs(g, al, states[i], parts[i], states[i + 1])
  }

  ghost predicate PartsRun(g: Graph, al: Buffers, states: seq<PState>, parts: seq<seq<Step>>) {
    |states| == |parts| + 1 && forall i :: 0 <= i < |parts| ==> PartRuns(g, al, states, parts, i)
  }

  /** The states between the parts of a program. */
  lemma {:induction false} StatesBetween(g: Graph, al: Buffers, s: PState, parts: seq<seq<Step>>, s': PState)
    returns (states: seq<PState>)
    requires Runs(g, al, s, Joined(parts), s')
    ensures PartsRun(g, al, states, parts) && states[0] == s && states[|parts|] == s'
    decreases |parts|
  {
    if parts == [] {
      states := [s];
    } else {
      var n := |parts| - 1;
      var mid := RunsSplit(g, al, s, Joined(parts[..n]), parts[n], s');
      var first := StatesBetween(g, al, s, parts[..n], mid);
      states := first + [s'];
      forall i | 0 <= i < |parts| ensures PartRuns(g, al, states, parts, i) {
        if i < n { assert PartRuns(g, al, first, parts[..n], i); }
      }
    }
  }

  // ---- leafs

  lemma {:induction false} RunsSplit(g: Graph, al: Buffers, s: PState, a: seq<Step>, b: seq<Step>, s': PState)
    returns (m: PState)
    requires Runs(g, al, s, a + b, s')
    ensures Runs(g, al, s, a, m) && Runs(g, al, m, b, s')
    decreases |b|
  {
    if b == [] {
      assert a + b == a;
      m := s';
    } else {
      var n := |b| - 1;
      var mid :| LastStep(g, al, s, a + b, mid, s');
      assert (a + b)[..|a + b| - 1] == a + b[..n] && (a + b)[|a + b| - 1] == b[n];
      m := RunsSplit(g, al, s, a, b[..n], mid);
      assert b == b[..n] + [b[n]];
      OneMoreStep(g, al, m, b[..n], mid, b[n], s');
    }
  }

  /** The state before the last step. */
  lemma LastOf(g: Graph, al: Buffers, s: PState, steps: seq<Step>, st: Step, s': PState) returns (mid: PState)
    requires Runs(g, al, s, steps + [st], s')
    ensures Runs(g, al, s, steps, mid) && StepRel(g, al, mid, s', st)
  {
    var all := steps + [st];
    assert all[..|all| - 1] == steps && all[|all| - 1] == st;
    mid :| LastStep(g, al, s, all, mid, s');
  }

  lemma OneStepRun(g: Graph, al: Buffers, s: PState, st: Step, s': PState)
    requires Runs(g, al, s, [st], s')
    ensures StepRel(g, al, s, s', st)
  {
    assert [st] == [] + [st];
    var mid := LastOf(g, al, s, [], st, s');
  }

  /** Placing a tensor that carries no operation: it stays where it is, or gets a place in buffer `b`. */
  lemma InitialPlace(g: Graph, al: Buffers, s: PState, s': PState, t: nat, b: nat)
    requires WellFormed(g) && t < |g.tensors| == |s.hn| && g.tensors[t].isNone && AllocateRel(g, al, s, s', t, b)
    ensures |s'.hn| == |s.hn| && forall u :: 0 <= u < |s.hn| && u != t ==> s'.hn[u] == s.hn[u]
    ensures if s.hn[t].held || !Owned(g, t) then s'.hn[t] == s.hn[t] else s'.hn[t].bufferId == b
  {
    assert !g.tensors[t].canInplace;
    assert InplaceParent(g, s.hn, t) == None;
  }

  /** The state after `n` leafs. */
  ghost predicate LeafState(g: Graph, al: Buffers, s: PState, lb: seq<nat>, n: nat) {
    Prepared(g, al, s, n, 0, 0, 0) && Backed(s) && LeafsPlanned(g, s.hn, lb, n)
  }

  lemma {:induction false} LeafStepIs(g: Graph, lb: seq<nat>, n: nat, k: nat)
    requires k < n <= |g.leafs| == |lb|
    ensures |LeafSteps(g, lb, n)| == n && LeafSteps(g, lb, n)[k] == Give(g.leafs[k], lb[k])
  {
    if k < n - 1 { LeafStepIs(g, lb, n - 1, k); } else if n > 1 { LeafStepIs(g, lb, n - 1, 0); }
  }

  lemma {:induction false} LeafRun(g: Graph, al: Buffers, lb: seq<nat>, trace: seq<PState>, steps: seq<Step>, n: nat)
    requires WellFormed(g) && SizesOk(g, al) && |steps| == |g.leafs| == |lb| && BuffersExist(al, lb)
    requires |trace| == |steps| + 1 && forall k :: 0 <= k < |steps| ==> TraceStep(g, al, trace, steps, k)
    requires forall k :: 0 <= k < |steps| ==> steps[k] == Give(g.leafs[k], lb[k])
    requires n <= |steps| && LeafState(g, al, trace[0], lb, 0)
    ensures LeafState(g, al, trace[n], lb, n)
    decreases n
  {
    if n > 0 {
      LeafRun(g, al, lb, trace, steps, n - 1);
      assert TraceStep(g, al, trace, steps, n - 1);
      LeafPlaced(g, al, lb, trace[n - 1], trace[n], n - 1);
    }
  }

  lemma LeafPlaced(g: Graph, al: Buffers, lb: seq<nat>, s: PState, s': PState, i: nat)
    requires WellFormed(g) && SizesOk(g, al) && i < |g.leafs| == |lb| && BuffersExist(al, lb)
    requires LeafState(g, al, s, lb, i) && StepRel(g, al, s, s', Give(g.leafs[i], lb[i]))
    ensures LeafState(g, al, s', lb, i + 1)
  {
    var t := g.leafs[i];
    GivingKeepsBacked(g, al, s, s', t, lb[i]);
    OneMoreLeaf(g, i);
    PreparedAllocate(g, al, s, s', t, lb[i], i, i + 1, 0, 0, 0);
    InitialPlace(g, al, s, s', t, lb[i]);
    assert Owned(g, t) ==> (s.hn[t].held <==> SeenInitial(g, t, i, 0, 0, 0));
    forall u: nat, k: nat | Owned(g, u) && k < i + 1 && FirstLeaf(g, u, k) ensures s'.hn[u].bufferId == lb[k] {
      if k < i { assert u in g.leafs[..i]; }
    }
  }

  // ---- inputs

  /** A slot before slot `j` of node `i` names `t`. */
  ghost predicate SlotBefore(g: Graph, t: nat, i: nat, j: nat) {
    exists k: nat, m: nat :: NamedAt(g, t, k, m) && (k < i || (k == i && m < j))
  }

  predicate NamedAt(g: Graph, t: nat, k: nat, m: nat) {
    k < |g.nodes| && m < |Src(g, k)| && Src(g, k)[m] == t
  }

  lemma {:induction false} CountedIsNamed(g: Graph, t: nat, i: nat, j: nat)
    requires i <= |g.nodes| && (if i < |g.nodes| then j <= |Src(g, i)| else j == 0) && Left(g, t, i, j) < Slots(g, t)
    ensures SlotBefore(g, t, i, j)
    decreases i, j
  {
    if j > 0 {
      LeftAdvance(g, t, i, j - 1);
      if Src(g, i)[j - 1] == t { assert NamedAt(g, t, i, j - 1); } else { CountedIsNamed(g, t, i, j - 1); }
    } else if i > 0 {
      assert Left(g, t, i - 1, |Src(g, i - 1)|) == Left(g, t, i, 0);
      CountedIsNamed(g, t, i - 1, |Src(g, i - 1)|);
    }
  }

  lemma NamedIsCounted(g: Graph, t: nat, i: nat, j: nat)
    requires SlotBefore(g, t, i, j)
    ensures Left(g, t, i, j) < Slots(g, t)
  {
    var k: nat, m: nat :| NamedAt(g, t, k, m) && (k < i || (k == i && m < j));
    LeftShrinks(g, t, 0, 0, k, m);
    LeftAdvance(g, t, k, m);
    LeftShrinks(g, t, k, m + 1, i, j);
  }

  /** An input has a place as soon as a node that is or reads it has been met. */
  lemma HeldIsMet(g: Graph, t: nat, k: nat, nodes: nat, i: nat, j: nat)
    requires LooseInput(g, t) && FirstMeets(g, t, k)
    requires i <= nodes <= i + 1 && nodes <= |g.nodes|
    requires (if i < |g.nodes| then j <= |Src(g, i)| else j == 0) && (nodes == i ==> j == 0)
    ensures SeenInitial(g, t, |g.leafs|, nodes, i, j) <==> MetBefore(g, t, k, nodes, i, j)
  {
    assert g.leafs[..|g.leafs|] == g.leafs;
    if NodeBefore(g, t, nodes) {
      var l :| 0 <= l < nodes && l < |g.nodes| && g.nodes[l] == t;
      assert Meets(g, t, l);
    }
    if Left(g, t, i, j) < Slots(g, t) {
      CountedIsNamed(g, t, i, j);
      var l: nat, m: nat :| NamedAt(g, t, l, m) && (l < i || (l == i && m < j));
      assert Meets(g, t, l);
    }
    if MetBefore(g, t, k, nodes, i, j) { MetIsSeen(g, t, k, nodes, i, j); }
  }

  lemma MetIsSeen(g: Graph, t: nat, k: nat, nodes: nat, i: nat, j: nat)
    requires LooseInput(g, t) && FirstMeets(g, t, k) && MetBefore(g, t, k, nodes, i, j) && i <= nodes
    ensures SeenInitial(g, t, |g.leafs|, nodes, i, j)
  {
    if g.nodes[k] == t && k < nodes {
      assert NodeBefore(g, t, nodes);
    } else {
      var m: nat :| m < |Src(g, k)| && Src(g, k)[m] == t && (k < i || m < j);
      assert NamedAt(g, t, k, m);
      NamedIsCounted(g, t, i, j);
    }
  }

  /** Offering `t` a place in the buffer of node `i` puts it there if node `i` is the first that meets it. */
  lemma InputsAfter(g: Graph, al: Buffers, s: PState, mid: PState, s': PState, nb: seq<nat>, t: nat,
                    nodes: nat, i: nat, j: nat, nodes': nat, j': nat)
    requires WellFormed(g) && i < |g.nodes| == |nb| && j <= |Src(g, i)| && t < |g.tensors|
    requires i <= nodes <= i + 1 && nodes <= |g.nodes| && (nodes == i ==> j == 0)
    requires Prepared(g, al, s, |g.leafs|, nodes, i, j) && InputsPlanned(g, s.hn, nb, nodes, i, j)
    requires |mid.hn| == |s.hn|
    requires forall u :: 0 <= u < |s.hn| ==> mid.hn[u].held == s.hn[u].held && PlaceOf(mid.hn[u]) == PlaceOf(s.hn[u])
    requires OfferInput(g, al, mid, s', t, nb[i])
    requires forall u: nat, k: nat ::
        MetBefore(g, u, k, nodes', i, j') ==> MetBefore(g, u, k, nodes, i, j) || (u == t && k == i)
    ensures InputsPlanned(g, s'.hn, nb, nodes', i, j')
    ensures |s'.hn| == |s.hn| && forall u :: 0 <= u < |s.hn| && s.hn[u].held ==> PlaceOf(s'.hn[u]) == PlaceOf(s.hn[u])
  {
    if g.tensors[t].input { InitialPlace(g, al, mid, s', t, nb[i]); }
    forall u: nat, k: nat | LooseInput(g, u) && FirstMeets(g, u, k) && MetBefore(g, u, k, nodes', i, j')
      ensures s'.hn[u].bufferId == nb[k]
    {
      HeldIsMet(g, u, k, nodes, i, j);
      assert s.hn[u].held <==> SeenInitial(g, u, |g.leafs|, nodes, i, j);
      assert PlaceOf(mid.hn[u]) == PlaceOf(s.hn[u]);
    }
  }

  /** The state when counting has come to slot `j` of node `i`. */
  ghost predicate CountState(g: Graph, al: Buffers, s: PState, lb: seq<nat>, nb: seq<nat>, nodes: nat, i: nat, j: nat) {
    && Prepared(g, al, s, |g.leafs|, nodes, i, j) && Backed(s)
    && LeafsPlanned(g, s.hn, lb, |g.leafs|) && InputsPlanned(g, s.hn, nb, nodes, i, j)
  }

  /** Leafs keep their places while places that are held do not change. */
  lemma LeafsStay(g: Graph, al: Buffers, s: PState, s': PState, lb: seq<nat>, nodes: nat, i: nat, j: nat)
    requires Prepared(g, al, s, |g.leafs|, nodes, i, j) && LeafsPlanned(g, s.hn, lb, |g.leafs|)
    requires |s'.hn| == |s.hn| && forall u :: 0 <= u < |s.hn| && s.hn[u].held ==> PlaceOf(s'.hn[u]) == PlaceOf(s.hn[u])
    ensures LeafsPlanned(g, s'.hn, lb, |g.leafs|)
  {
    assert g.leafs[..|g.leafs|] == g.leafs;
    forall t: nat, k: nat | Owned(g, t) && FirstLeaf(g, t, k) ensures s'.hn[t].bufferId == lb[k] {
      assert s.hn[t].held <==> SeenInitial(g, t, |g.leafs|, nodes, i, j);
      assert PlaceOf(s'.hn[t]) == PlaceOf(s.hn[t]);
    }
  }

  lemma NodeCounted(g: Graph, al: Buffers, s: PState, s': PState, lb: seq<nat>, nb: seq<nat>, i: nat)
    requires WellFormed(g) && SizesOk(g, al) && i < |g.nodes| == |nb| && nb[i] < |al|
    requires CountState(g, al, s, lb, nb, i, i, 0) && StepRel(g, al, s, s', SeeNode(g.nodes[i], nb[i]))
    ensures CountState(g, al, s', lb, nb, i + 1, i, 0)
  {
    var mid := PState(CountView(g, s.hn, g.nodes[i]), s.views);
    OfferingKeepsBacked(g, al, s, mid, s', g.nodes[i], nb[i]);
    PreparedNode(g, al, s, s', i, nb[i]);
    InputsAfter(g, al, s, mid, s', nb, g.nodes[i], i, i, 0, i + 1, 0);
    LeafsStay(g, al, s, s', lb, i, i, 0);
  }

  lemma OfferingKeepsBacked(g: Graph, al: Buffers, s: PState, mid: PState, s': PState, t: nat, b: nat)
    requires Mem(g, al, s) && Backed(s) && SizesOk(g, al) && t < |g.tensors| && b < |al|
    requires mid.views == s.views && |mid.hn| == |s.hn| && OfferInput(g, al, mid, s', t, b)
    requires forall u :: 0 <= u < |s.hn| ==> mid.hn[u].held == s.hn[u].held && PlaceOf(mid.hn[u]) == PlaceOf(s.hn[u])
    ensures Backed(s') && AllSound(s')
  {
    CrossingKeepsMem(g, al, s, mid);
    var top: nat :| AllViewsFit(s, top);
    assert AllViewsFit(mid, top);
    if g.tensors[t].input { GivingKeepsBacked(g, al, mid, s', t, b); } else { BackedIsSound(s'); }
  }

  lemma SlotCounted(g: Graph, al: Buffers, s: PState, s': PState, lb: seq<nat>, nb: seq<nat>, i: nat, j: nat)
    requires WellFormed(g) && SizesOk(g, al) && i < |g.nodes| == |nb| && j < |Src(g, i)| && nb[i] < |al|
    requires CountState(g, al, s, lb, nb, i + 1, i, j) && StepRel(g, al, s, s', SeeSource(Src(g, i)[j], nb[i]))
    ensures CountState(g, al, s', lb, nb, i + 1, i, j + 1)
  {
    var t := Src(g, i)[j];
    var mid := PState(CountSlot(g, s.hn, t), s.views);
    OfferingKeepsBacked(g, al, s, mid, s', t, nb[i]);
    PreparedSlot(g, al, s, s', i, j, nb[i]);
    assert Src(g, i)[..j + 1] == Src(g, i)[..j] + [t];
    InputsAfter(g, al, s, mid, s', nb, t, i + 1, i, j, i + 1, j + 1);
    LeafsStay(g, al, s, s', lb, i + 1, i, j);
  }

  lemma CountEnds(g: Graph, al: Buffers, s: PState, lb: seq<nat>, nb: seq<nat>, i: nat)
    requires i < |g.nodes| == |nb| && CountState(g, al, s, lb, nb, i + 1, i, |Src(g, i)|)
    ensures CountState(g, al, s, lb, nb, i + 1, i + 1, 0)
  {
    PreparedNext(g, al, s, i);
    assert Src(g, i)[..|Src(g, i)|] == Src(g, i);
    forall t: nat, k: nat | LooseInput(g, t) && FirstMeets(g, t, k) && MetBefore(g, t, k, i + 1, i + 1, 0)
      ensures s.hn[t].bufferId == nb[k]
    {
      if k == i { assert MetBefore(g, t, k, i + 1, i, |Src(g, i)|); }
    }
  }

  lemma {:induction false} CountStepIs(g: Graph, i: nat, b: nat, j: nat, m: nat)
    requires i < |g.nodes| && m < j <= |Src(g, i)|
    ensures |CountSteps(g, i, b, j)| == j + 1 && CountSteps(g, i, b, j)[0] == SeeNode(g.nodes[i], b)
    ensures CountSteps(g, i, b, j)[m + 1] == SeeSource(Src(g, i)[m], b)
  {
    if j > 1 { CountStepIs(g, i, b, j - 1, if m < j - 1 then m else 0); }
  }

  /** Counting node `i` and its sources, step by step. */
  lemma {:induction false} CountTrace(g: Graph, al: Buffers, trace: seq<PState>, steps: seq<Step>, lb: seq<nat>,
                                      nb: seq<nat>, i: nat, j: nat)
    requires WellFormed(g) && SizesOk(g, al) && i < |g.nodes| == |nb| && nb[i] < |al| && j <= |Src(g, i)|
    requires |steps| == |Src(g, i)| + 1 && steps[0] == SeeNode(g.nodes[i], nb[i])
    requires forall m :: 0 <= m < |Src(g, i)| ==> steps[m + 1] == SeeSource(Src(g, i)[m], nb[i])
    requires |trace| == |steps| + 1 && forall k :: 0 <= k < |steps| ==> TraceStep(g, al, trace, steps, k)
    requires CountState(g, al, trace[0], lb, nb, i, i, 0)
    ensures CountState(g, al, trace[j + 1], lb, nb, i + 1, i, j)
    decreases j
  {
    if j == 0 {
      assert TraceStep(g, al, trace, steps, 0);
      NodeCounted(g, al, trace[0], trace[1], lb, nb, i);
    } else {
      CountTrace(g, al, trace, steps, lb, nb, i, j - 1);
      assert TraceStep(g, al, trace, steps, j) && steps[j - 1 + 1] == SeeSource(Src(g, i)[j - 1], nb[i]);
      SlotCounted(g, al, trace[j], trace[j + 1], lb, nb, i, j - 1);
    }
  }

  lemma CountNodeRun(g: Graph, al: Buffers, s: PState, s': PState, lb: seq<nat>, nb: seq<nat>, i: nat)
    requires WellFormed(g) && SizesOk(g, al) && i < |g.nodes| == |nb| && nb[i] < |al|
    requires CountState(g, al, s, lb, nb, i, i, 0)
    requires Runs(g, al, s, CountSteps(g, i, nb[i], |Src(g, i)|), s')
    ensures CountState(g, al, s', lb, nb, i + 1, i + 1, 0)
  {
    var n, steps := |Src(g, i)|, CountSteps(g, i, nb[i], |Src(g, i)|);
    var trace := TraceOf(g, al, s, steps, s');
    if n > 0 { CountStepIs(g, i, nb[i], n, 0); }
    forall m | 0 <= m < n ensures steps[m + 1] == SeeSource(Src(g, i)[m], nb[i]) {
      CountStepIs(g, i, nb[i], n, m);
    }
    CountTrace(g, al, trace, steps, lb, nb, i, n);
    CountEnds(g, al, s', lb, nb, i);
  }

  function CountParts(g: Graph, nb: seq<nat>, n: nat): (parts: seq<seq<Step>>)
    requires n <= |g.nodes| == |nb|
  {
    seq(n, i requires 0 <= i < n => CountSteps(g, i, nb[i], |Src(g, i)|))
  }

  lemma {:induction false} CountIsJoined(g: Graph, nb: seq<nat>, n: nat)
    requires n <= |g.nodes| == |nb|
    ensures CountAll(g, nb, n) == Joined(CountParts(g, nb, n))
  {
    if n > 0 {
      CountIsJoined(g, nb, n - 1);
      assert CountParts(g, nb, n)[..n - 1] == CountParts(g, nb, n - 1);
    }
  }

  lemma CountRun(g: Graph, al: Buffers, states: seq<PState>, lb: seq<nat>, nb: seq<nat>)
    requires WellFormed(g) && SizesOk(g, al) && |g.nodes| == |nb| && BuffersExist(al, nb)
    requires PartsRun(g, al, states, CountParts(g, nb, |g.nodes|))
    requires CountState(g, al, states[0], lb, nb, 0, 0, 0)
    ensures CountState(g, al, states[|g.nodes|], lb, nb, |g.nodes|, |g.nodes|, 0)
  {
    var n := |g.nodes|;
    var holds := (i: nat) => i < |states| && CountState(g, al, states[i], lb, nb, i, i, 0);
    forall i: nat | i < n && holds(i) ensures holds(i + 1) {
      assert PartRuns(g, al, states, CountParts(g, nb, n), i);
      CountNodeRun(g, al, states[i], states[i + 1], lb, nb, i);
    }
    KeptToTheEnd(holds, n);
  }

  // ---- nodes

  /** What the walk keeps besides its own invariant: leafs, inputs and the first `n` nodes are where they
      belong. */
  ghost predicate AllPlanned(g: Graph, hn: seq<HashNode>, lb: seq<nat>, nb: seq<nat>, n: nat) {
    && LeafsPlanned(g, hn, lb, |g.leafs|) && InputsPlanned(g, hn, nb, |g.nodes|, |g.nodes|, 0)
    && NodesPlanned(g, hn, nb, n)
  }

  /** Sources that a node may take have places before it. */
  lemma TakenIsPlaced(g: Graph, i: nat, j: nat)
    requires WellFormed(g) && MayTake(g, i, j)
    ensures Placed(g, Src(g, i)[j], i)
  {
    assert NodeWellFormed(g, i) && SourceWellFormed(g, Src(g, i)[j], i);
  }

  lemma LooseIsPlaced(g: Graph, t: nat, k: nat)
    requires LooseInput(g, t) && FirstMeets(g, t, k)
    ensures Placed(g, t, 0)
  {
    if g.nodes[k] != t {
      var m :| 0 <= m < |Src(g, k)| && Src(g, k)[m] == t;
      LeftPositive(g, t, 0, 0, k, m);
    }
  }

  /** While placed tensors stay where they are, everything stays planned. */
  lemma PlannedStays(g: Graph, hn: seq<HashNode>, hn': seq<HashNode>, lb: seq<nat>, nb: seq<nat>, n: nat)
    requires WellFormed(g) && n <= |g.nodes| && AllPlanned(g, hn, lb, nb, n) && |hn'| == |hn|
    requires forall t :: 0 <= t < |hn| && Placed(g, t, n) ==> PlaceOf(hn'[t]) == PlaceOf(hn[t])
    ensures AllPlanned(g, hn', lb, nb, n)
  {
    forall t: nat, k: nat | Owned(g, t) && FirstLeaf(g, t, k) ensures hn'[t].bufferId == lb[k] {
      assert Placed(g, t, n) && PlaceOf(hn'[t]) == PlaceOf(hn[t]);
    }
    forall t: nat, k: nat | LooseInput(g, t) && FirstMeets(g, t, k) ensures hn'[t].bufferId == nb[k] {
      LooseIsPlaced(g, t, k);
      assert MetBefore(g, t, k, |g.nodes|, |g.nodes|, 0);
      assert Placed(g, t, n) && PlaceOf(hn'[t]) == PlaceOf(hn[t]);
    }
    forall i: nat | i < n && Computed(g, g.nodes[i]) ensures NodePlanned(g, hn', i, nb[i]) {
      NodeStays(g, hn, hn', nb, n, i);
    }
  }

  lemma NodeStays(g: Graph, hn: seq<HashNode>, hn': seq<HashNode>, nb: seq<nat>, n: nat, i: nat)
    requires WellFormed(g) && n <= |g.nodes| && NodesPlanned(g, hn, nb, n) && |hn'| == |hn|
    requires forall t :: 0 <= t < |hn| && Placed(g, t, n) ==> PlaceOf(hn'[t]) == PlaceOf(hn[t])
    requires i < n && Computed(g, g.nodes[i])
    ensures NodePlanned(g, hn', i, nb[i])
  {
    assert NodePlanned(g, hn, i, nb[i]);
    assert NodeBefore(g, g.nodes[i], n);
    assert PlaceOf(hn'[g.nodes[i]]) == PlaceOf(hn[g.nodes[i]]);
    forall j: nat | MayTake(g, i, j) ensures PlaceOf(hn'[Src(g, i)[j]]) == PlaceOf(hn[Src(g, i)[j]]) {
      TakenIsPlaced(g, i, j);
      PlacedGrows(g, Src(g, i)[j], i, n);
    }
  }

  ghost predicate WalkState(g: Graph, al: Buffers, s: PState, lb: seq<nat>, nb: seq<nat>, placed: nat, i: nat, j: nat,
                            reused: Option<nat>) {
    Walk(g, al, s, placed, i, j, reused) && Backed(s) && AllPlanned(g, s.hn, lb, nb, placed)
  }

  /** Placing node `i`. */
  lemma NodePlaced(g: Graph, al: Buffers, s: PState, s': PState, lb: seq<nat>, nb: seq<nat>, i: nat)
    requires WellFormed(g) && SizesOk(g, al) && i < |g.nodes| == |nb| && nb[i] < |al|
    requires WalkState(g, al, s, lb, nb, i, i, 0, None) && StepRel(g, al, s, s', Give(g.nodes[i], nb[i]))
    ensures WalkState(g, al, s', lb, nb, i + 1, i, 0, ReusedBy(g, s, g.nodes[i]))
  {
    GivingKeepsBacked(g, al, s, s', g.nodes[i], nb[i]);
    PlaceStep(g, al, s, s', i, nb[i]);
    AllocateIsSteady(g, al, s, s', i, nb[i]);
    PlannedStays(g, s.hn, s'.hn, lb, nb, i);
    if Computed(g, g.nodes[i]) { NewNodePlanned(g, al, s, s', nb, i); }
    forall k: nat | k < i + 1 && k < |g.nodes| && Computed(g, g.nodes[k]) ensures NodePlanned(g, s'.hn, k, nb[k]) {}
  }

  lemma NewNodePlanned(g: Graph, al: Buffers, s: PState, s': PState, nb: seq<nat>, i: nat)
    requires WellFormed(g) && i < |g.nodes| == |nb| && Computed(g, g.nodes[i])
    requires Walk(g, al, s, i, i, 0, None) && AllocateRel(g, al, s, s', g.nodes[i], nb[i])
    ensures |s'.hn| == |g.tensors| && NodePlanned(g, s'.hn, i, nb[i])
  {
    var t := g.nodes[i];
    PlacedOnce(g, al, s, i);
    assert !Placed(g, t, i);
    NewPlace(g, al, s, s', t, nb[i]);
    TakenOverIsFirst(g, al, s, i);
    PlannedAsTaken(g, s'.hn, i, nb[i], InplaceParent(g, s.hn, t));
  }

  /** A tensor without a place gets that of the source it takes over, or one in buffer `b`. */
  lemma NewPlace(g: Graph, al: Buffers, s: PState, s': PState, t: nat, b: nat)
    requires t < |g.tensors| == |s.hn| && AllocateRel(g, al, s, s', t, b) && !Skipped(g, s.hn, t)
    ensures |s'.hn| == |s.hn|
    ensures match InplaceParent(g, s.hn, t)
            case Some(p) => p < |s'.hn| && PlaceOf(s'.hn[t]) == PlaceOf(s'.hn[p])
            case None => s'.hn[t].bufferId == b
  {
  }

  lemma PlannedAsTaken(g: Graph, hn: seq<HashNode>, i: nat, b: nat, taken: Option<nat>)
    requires i < |g.nodes| && |hn| == |g.tensors|
    requires forall j: nat :: MayTake(g, i, j) && (forall l: nat :: l < j ==> !MayTake(g, i, l)) ==>
               taken == Some(Src(g, i)[j])
    requires (forall j :: 0 <= j < |Src(g, i)| ==> !MayTake(g, i, j)) ==> taken == None
    requires match taken
             case Some(p) => p < |hn| && PlaceOf(hn[g.nodes[i]]) == PlaceOf(hn[p])
             case None => hn[g.nodes[i]].bufferId == b
    ensures NodePlanned(g, hn, i, b)
  {
  }

  /** Passing slot `j` of node `i`. */
  lemma SlotPassed(g: Graph, al: Buffers, s: PState, s': PState, lb: seq<nat>, nb: seq<nat>, i: nat, j: nat,
                   reused: Option<nat>)
    requires WellFormed(g) && SizesOk(g, al) && i < |g.nodes| && j < |Src(g, i)|
    requires WalkState(g, al, s, lb, nb, i + 1, i, j, reused) && StepRel(g, al, s, s', Pass(Src(g, i)[j]))
    ensures WalkState(g, al, s', lb, nb, i + 1, i, j + 1, reused)
  {
    PassingKeepsBacked(g, al, s, s', Src(g, i)[j]);
    PlannerWalk.SlotStep(g, al, s, s', i, j, reused);
    SlotIsSteady(g, al, s, s', Src(g, i)[j], i + 1);
    PlannedStays(g, s.hn, s'.hn, lb, nb, i + 1);
  }

  lemma {:induction false} ParentStepIs(g: Graph, i: nat, b: nat, j: nat, m: nat)
    requires i < |g.nodes| && m < j <= |Src(g, i)|
    ensures |ParentSteps(g, i, b, j)| == j && ParentSteps(g, i, b, j)[m] == Give(Src(g, i)[m], b)
  {
    if j > 1 { ParentStepIs(g, i, b, j - 1, if m < j - 1 then m else 0); }
  }

  lemma {:induction false} ParentTrace(g: Graph, al: Buffers, trace: seq<PState>, steps: seq<Step>, i: nat, b: nat,
                                       j: nat)
    requires WellFormed(g) && i < |g.nodes| && j <= |steps| == |Src(g, i)|
    requires forall m :: 0 <= m < |steps| ==> steps[m] == Give(Src(g, i)[m], b)
    requires |trace| == |steps| + 1 && forall k :: 0 <= k < |steps| ==> TraceStep(g, al, trace, steps, k)
    requires Walk(g, al, trace[0], i, i, 0, None)
    ensures trace[j] == trace[0]
    decreases j
  {
    if j > 0 {
      ParentTrace(g, al, trace, steps, i, b, j - 1);
      assert TraceStep(g, al, trace, steps, j - 1);
      SourceIsSkipped(g, al, trace[0], i, j - 1);
    }
  }

  /** Offering places to the sources changes nothing: they have places. */
  lemma ParentRun(g: Graph, al: Buffers, s: PState, s': PState, i: nat, b: nat)
    requires WellFormed(g) && i < |g.nodes| && Walk(g, al, s, i, i, 0, None)
    requires Runs(g, al, s, ParentSteps(g, i, b, |Src(g, i)|), s')
    ensures s' == s
  {
    var n, steps := |Src(g, i)|, ParentSteps(g, i, b, |Src(g, i)|);
    var trace := TraceOf(g, al, s, steps, s');
    if n > 0 { ParentStepIs(g, i, b, n, 0); }
    forall m | 0 <= m < n ensures steps[m] == Give(Src(g, i)[m], b) { ParentStepIs(g, i, b, n, m); }
    ParentTrace(g, al, trace, steps, i, b, n);
  }

  /** Placing node `i`, and then passing its first `j` slots. */
  function PassParts(g: Graph, i: nat, b: nat, j: nat): (parts: seq<seq<Step>>)
    requires i < |g.nodes| && j <= |Src(g, i)|
  {
    [NodeSteps(g, i, b, 0)] + seq(j, m requires 0 <= m < j => [Pass(Src(g, i)[m])])
  }

  lemma {:induction false} NodeIsJoined(g: Graph, i: nat, b: nat, j: nat)
    requires i < |g.nodes| && j <= |Src(g, i)|
    ensures NodeSteps(g, i, b, j) == Joined(PassParts(g, i, b, j))
  {
    var parts := PassParts(g, i, b, j);
    if j > 0 {
      NodeIsJoined(g, i, b, j - 1);
      assert parts[..|parts| - 1] == PassParts(g, i, b, j - 1);
    } else {
      assert parts[..0] == [] && Joined(parts) == Joined(parts[..0]) + parts[0];
    }
  }

  lemma PassStepIs(g: Graph, al: Buffers, states: seq<PState>, i: nat, b: nat, j: nat)
    requires i < |g.nodes| && j < |Src(g, i)| && PartsRun(g, al, states, PassParts(g, i, b, |Src(g, i)|))
    ensures StepRel(g, al, states[j + 1], states[j + 2], Pass(Src(g, i)[j]))
  {
    var parts := PassParts(g, i, b, |Src(g, i)|);
    assert PartRuns(g, al, states, parts, j + 1) && parts[j + 1] == [Pass(Src(g, i)[j])];
    OneStepRun(g, al, states[j + 1], Pass(Src(g, i)[j]), states[j + 2]);
  }

  /** Slot `j` of the node is passed between two of the states. */
  ghost predicate SlotRuns(g: Graph, al: Buffers, passes: seq<PState>, i: nat, j: nat)
    requires j + 1 < |passes|
  {
    i < |g.nodes| && j < |Src(g, i)| && StepRel(g, al, passes[j], passes[j + 1], Pass(Src(g, i)[j]))
  }

  lemma PassRun(g: Graph, al: Buffers, passes: seq<PState>, lb: seq<nat>, nb: seq<nat>, i: nat, reused: Option<nat>)
    requires WellFormed(g) && SizesOk(g, al) && |passes| > 0
    requires forall j :: 0 <= j < |passes| - 1 ==> SlotRuns(g, al, passes, i, j)
    requires WalkState(g, al, passes[0], lb, nb, i + 1, i, 0, reused)
    ensures WalkState(g, al, passes[|passes| - 1], lb, nb, i + 1, i, |passes| - 1, reused)
  {
    var n := |passes| - 1;
    var holds := (j: nat) => j < |passes| && WalkState(g, al, passes[j], lb, nb, i + 1, i, j, reused);
    forall j: nat | j < n && holds(j) ensures holds(j + 1) {
      assert SlotRuns(g, al, passes, i, j);
      SlotPassed(g, al, passes[j], passes[j + 1], lb, nb, i, j, reused);
    }
    KeptToTheEnd(holds, n);
  }

  lemma GiveRun(g: Graph, al: Buffers, s: PState, s': PState, lb: seq<nat>, nb: seq<nat>, i: nat)
    requires WellFormed(g) && SizesOk(g, al) && i < |g.nodes| == |nb| && nb[i] < |al|
    requires WalkState(g, al, s, lb, nb, i, i, 0, None) && Runs(g, al, s, NodeSteps(g, i, nb[i], 0), s')
    ensures WalkState(g, al, s', lb, nb, i + 1, i, 0, ReusedBy(g, s, g.nodes[i]))
  {
    var n := |Src(g, i)|;
    var mid := LastOf(g, al, s, ParentSteps(g, i, nb[i], n), Give(g.nodes[i], nb[i]), s');
    ParentRun(g, al, s, mid, i, nb[i]);
    NodePlaced(g, al, s, s', lb, nb, i);
  }

  lemma NodeRun(g: Graph, al: Buffers, s: PState, s': PState, lb: seq<nat>, nb: seq<nat>, i: nat)
    requires WellFormed(g) && SizesOk(g, al) && i < |g.nodes| == |nb| && nb[i] < |al|
    requires WalkState(g, al, s, lb, nb, i, i, 0, None)
    requires Runs(g, al, s, NodeSteps(g, i, nb[i], |Src(g, i)|), s')
    ensures WalkState(g, al, s', lb, nb, i + 1, i + 1, 0, None)
  {
    var n := |Src(g, i)|;
    NodeIsJoined(g, i, nb[i], n);
    var states := StatesBetween(g, al, s, PassParts(g, i, nb[i], n), s');
    assert PartRuns(g, al, states, PassParts(g, i, nb[i], n), 0);
    GiveRun(g, al, s, states[1], lb, nb, i);
    var passes := states[1..];
    forall j | 0 <= j < n ensures SlotRuns(g, al, passes, i, j) { PassStepIs(g, al, states, i, nb[i], j); }
    PassRun(g, al, passes, lb, nb, i, ReusedBy(g, s, g.nodes[i]));
    NodeDone(g, al, s', i, ReusedBy(g, s, g.nodes[i]));
  }

  function WalkParts(g: Graph, nb: seq<nat>, n: nat): (parts: seq<seq<Step>>)
    requires n <= |g.nodes| == |nb|
  {
    seq(n, i requires 0 <= i < n => NodeSteps(g, i, nb[i], |Src(g, i)|))
  }

  lemma {:induction false} WalkIsJoined(g: Graph, nb: seq<nat>, n: nat)
    requires n <= |g.nodes| == |nb|
    ensures WalkSteps(g, nb, n) == Joined(WalkParts(g, nb, n))
  {
    if n > 0 {
      WalkIsJoined(g, nb, n - 1);
      assert WalkParts(g, nb, n)[..n - 1] == WalkParts(g, nb, n - 1);
    }
  }

  lemma WalkRun(g: Graph, al: Buffers, states: seq<PState>, lb: seq<nat>, nb: seq<nat>)
    requires WellFormed(g) && SizesOk(g, al) && |g.nodes| == |nb| && BuffersExist(al, nb)
    requires PartsRun(g, al, states, WalkParts(g, nb, |g.nodes|))
    requires WalkState(g, al, states[0], lb, nb, 0, 0, 0, None)
    ensures WalkState(g, al, states[|g.nodes|], lb, nb, |g.nodes|, |g.nodes|, 0, None)
  {
    var n := |g.nodes|;
    var holds := (i: nat) => i < |states| && WalkState(g, al, states[i], lb, nb, i, i, 0, None);
    forall i: nat | i < n && holds(i) ensures holds(i + 1) {
      assert PartRuns(g, al, states, WalkParts(g, nb, n), i);
      NodeRun(g, al, states[i], states[i + 1], lb, nb, i);
    }
    KeptToTheEnd(holds, n);
  }

  // ---- the whole program

  lemma LeafsArePlanned(g: Graph, al: Buffers, s: PState, s': PState, lb: seq<nat>)
    requires WellFormed(g) && SizesOk(g, al) && |g.leafs| == |lb| && BuffersExist(al, lb)
    requires LeafState(g, al, s, lb, 0) && Runs(g, al, s, LeafSteps(g, lb, |g.leafs|), s')
    ensures LeafState(g, al, s', lb, |g.leafs|)
  {
    var n, steps := |g.leafs|, LeafSteps(g, lb, |g.leafs|);
    var trace := TraceOf(g, al, s, steps, s');
    if n > 0 { LeafStepIs(g, lb, n, 0); }
    forall k | 0 <= k < n ensures steps[k] == Give(g.leafs[k], lb[k]) { LeafStepIs(g, lb, n, k); }
    LeafRun(g, al, lb, trace, steps, n);
  }

  lemma InputsArePlanned(g: Graph, al: Buffers, s: PState, s': PState, lb: seq<nat>, nb: seq<nat>)
    requires WellFormed(g) && SizesOk(g, al) && |g.nodes| == |nb| && BuffersExist(al, nb)
    requires LeafState(g, al, s, lb, |g.leafs|) && Runs(g, al, s, CountAll(g, nb, |g.nodes|), s')
    ensures WalkState(g, al, s', lb, nb, 0, 0, 0, None)
  {
    var n := |g.nodes|;
    assert CountState(g, al, s, lb, nb, 0, 0, 0);
    CountIsJoined(g, nb, n);
    var states := StatesBetween(g, al, s, CountParts(g, nb, n), s');
    CountRun(g, al, states, lb, nb);
    PreparedStartsWalk(g, al, s');
  }

  lemma NodesArePlanned(g: Graph, al: Buffers, s: PState, s': PState, lb: seq<nat>, nb: seq<nat>)
    requires WellFormed(g) && SizesOk(g, al) && |g.nodes| == |nb| && BuffersExist(al, nb)
    requires WalkState(g, al, s, lb, nb, 0, 0, 0, None) && Runs(g, al, s, WalkSteps(g, nb, |g.nodes|), s')
    ensures InItsBuffer(g, s'.hn, nb, lb)
  {
    var n := |g.nodes|;
    WalkIsJoined(g, nb, n);
    var states := StatesBetween(g, al, s, WalkParts(g, nb, n), s');
    WalkRun(g, al, states, lb, nb);
    forall t: nat, k: nat | LooseInput(g, t) && FirstMeets(g, t, k) ensures s'.hn[t].bufferId == nb[k] {
      assert MetBefore(g, t, k, n, n, 0);
    }
  }

  /** Whatever run the program of a graph has, it leaves every tensor where it belongs: a leaf in the
      buffer of its first entry, an input that is no leaf in that of the first node that is or reads it, any
      other node in its own, unless it takes over a source. */
  lemma PlanIsInItsBuffers(g: Graph, al: Buffers, views: seq<seq<View>>, nb: seq<nat>, lb: seq<nat>, s': PState)
    requires WellFormed(g) && SizesOk(g, al) && |g.nodes| == |nb| && |g.leafs| == |lb| && |views| == |al|
    requires BuffersExist(al, nb) && BuffersExist(al, lb) && Backed(Empty(g, views))
    requires Runs(g, al, Empty(g, views), PlanSteps(g, nb, lb), s')
    ensures InItsBuffer(g, s'.hn, nb, lb)
  {
    var s := Empty(g, views);
    BackedIsSound(s);
    BlankIsPrepared(g, al, s);
    assert LeafState(g, al, s, lb, 0);
    var counts, walk := CountAll(g, nb, |g.nodes|), WalkSteps(g, nb, |g.nodes|);
    var s1 := RunsSplit(g, al, s, LeafSteps(g, lb, |g.leafs|), counts + walk, s');
    LeafsArePlanned(g, al, s, s1, lb);
    var s2 := RunsSplit(g, al, s1, counts, walk, s');
    InputsArePlanned(g, al, s1, s2, lb, nb);
    NodesArePlanned(g, al, s2, s', lb, nb);
  }
}
