/** The planner as a sequence of steps: what it does to a graph in which order, and where it stops. */
module PlannerRuns {
  import opened Wrappers
  import opened DynTallocrs
  import opened DynTallocrLaws
  import opened Graphs
  import opened Executions
  import opened PlannerSpec
  import opened PlannerWalk

  datatype Step =
    | Give(t: nat, b: nat)      // find a place for `t`, preferably in buffer `b`
    | SeeNode(t: nat, b: nat)   // count `t` as a view, and place it if it is an input
    | SeeSource(t: nat, b: nat) // count a use of `t`, and place it if it is an input
    | Pass(t: nat)              // cross off a use of `t`

  /** The state whose counters already include the step. */
  function Counted(g: Graph, s: PState, st: Step): PState
    requires st.t < |g.tensors| == |s.hn|
  {
    match st
    case SeeNode(t, b) => PState(CountView(g, s.hn, t), s.views)
    case SeeSource(t, b) => PState(CountSlot(g, s.hn, t), s.views)
    case _ => s
  }

  /** The step is made: nothing stops it, and the state changes as it says. */
  ghost predicate StepRel(g: Graph, al: Buffers, s: PState, s': PState, st: Step) {
    !StepAborts(g, al, s, st) && st.t < |g.tensors| == |s.hn| &&
    match st
    case Give(t, b) => AllocateRel(g, al, s, s', t, b)
    case Pass(t) => SlotRel(g, al, s, s', t)
    case _ => OfferInput(g, al, Counted(g, s, st), s', st.t, st.b)
  }

  /** The step cannot be made: no memory is left, a node is larger than the source it takes over, or
      all blocks of a free list are in use. */
  ghost predicate StepAborts(g: Graph, al: Buffers, s: PState, st: Step) {
    Mem(g, al, s) && st.t < |g.tensors| &&
    match st
    case Give(t, b) => b < |al| && AllocateAborts(g, al, s, t, b)
    case Pass(t) => SlotAborts(g, al, s, t)
    case _ => st.b < |al| && g.tensors[st.t].input && OfferAborts(g, al, Counted(g, s, st), st.t, st.b)
  }

  ghost predicate OfferAborts(g: Graph, al: Buffers, s: PState, t: nat, b: nat)
    requires t < |g.tensors| && b < |al|
  {
    Mem(g, al, s) && AllocateAborts(g, al, s, t, b)
  }

  /** The steps lead from `s` to `s'`. */
  ghost predicate Runs(g: Graph, al: Buffers, s: PState, steps: seq<Step>, s': PState)
    decreases |steps|, 0
  {
    if steps == [] then s' == s else exists mid :: LastStep(g, al, s, steps, mid, s')
  }

  /** The last step is made from `mid`. */
  ghost predicate LastStep(g: Graph, al: Buffers, s: PState, steps: seq<Step>, mid: PState, s': PState)
    requires steps != []
    decreases |steps| - 1, 1
  {
    Runs(g, al, s, steps[..|steps| - 1], mid) && StepRel(g, al, mid, s', steps[|steps| - 1])
  }

  ghost predicate StopsAt(g: Graph, al: Buffers, s: PState, steps: seq<Step>, k: nat, mid: PState) {
    k < |steps| && Runs(g, al, s, steps[..k], mid) && StepAborts(g, al, mid, steps[k])
  }

  /** On the way there is a step that cannot be made. */
  ghost predicate Stops(g: Graph, al: Buffers, s: PState, steps: seq<Step>) {
    exists k: nat, mid: PState :: StopsAt(g, al, s, steps, k, mid)
  }

  /** What a planning method does: it makes all the steps, or stops at one that cannot be made. */
  ghost predicate Does(g: Graph, al: Buffers, s: PState, steps: seq<Step>, s': PState, ok: bool) {
    if ok then Runs(g, al, s, steps, s') else Stops(g, al, s, steps)
  }

  // ---- the program of a graph

  function LeafSteps(g: Graph, leafBuffers: seq<nat>, n: nat): seq<Step>
    requires n <= |g.leafs| == |leafBuffers|
  {
    if n == 0 then [] else LeafSteps(g, leafBuffers, n - 1) + [Give(g.leafs[n - 1], leafBuffers[n - 1])]
  }

  /** Counting node `i` and its first `j` sources. */
  function CountSteps(g: Graph, i: nat, b: nat, j: nat): seq<Step>
    requires i < |g.nodes| && j <= |Src(g, i)|
  {
    if j == 0 then [SeeNode(g.nodes[i], b)] else CountSteps(g, i, b, j - 1) + [SeeSource(Src(g, i)[j - 1], b)]
  }

  function CountAll(g: Graph, nodeBuffers: seq<nat>, n: nat): seq<Step>
    requires n <= |g.nodes| == |nodeBuffers|
  {
    if n == 0 then [] else CountAll(g, nodeBuffers, n - 1) + CountSteps(g, n - 1, nodeBuffers[n - 1], |Src(g, n - 1)|)
  }

  function ParentSteps(g: Graph, i: nat, b: nat, j: nat): seq<Step>
    requires i < |g.nodes| && j <= |Src(g, i)|
  {
    if j == 0 then [] else ParentSteps(g, i, b, j - 1) + [Give(Src(g, i)[j - 1], b)]
  }

  /** Placing node `i` and its sources, and passing the first `j` sources. */
  function NodeSteps(g: Graph, i: nat, b: nat, j: nat): seq<Step>
    requires i < |g.nodes| && j <= |Src(g, i)|
  {
    if j == 0 then ParentSteps(g, i, b, |Src(g, i)|) + [Give(g.nodes[i], b)]
    else NodeSteps(g, i, b, j - 1) + [Pass(Src(g, i)[j - 1])]
  }

  function WalkSteps(g: Graph, nodeBuffers: seq<nat>, n: nat): seq<Step>
    requires n <= |g.nodes| == |nodeBuffers|
  {
    if n == 0 then [] else WalkSteps(g, nodeBuffers, n - 1) + NodeSteps(g, n - 1, nodeBuffers[n - 1], |Src(g, n - 1)|)
  }

  function PlanSteps(g: Graph, nodeBuffers: seq<nat>, leafBuffers: seq<nat>): seq<Step>
    requires |g.nodes| == |nodeBuffers| && |g.leafs| == |leafBuffers|
  {
    LeafSteps(g, leafBuffers, |g.leafs|) + (CountAll(g, nodeBuffers, |g.nodes|) + WalkSteps(g, nodeBuffers, |g.nodes|))
  }

  /** Nothing is planned yet. */
  function Empty(g: Graph, views: seq<seq<View>>): PState {
    PState(seq(|g.tensors|, _ => BLANK), views)
  }

  // ---- putting runs together

  lemma OneStep(g: Graph, al: Buffers, s: PState, s': PState, st: Step)
    requires StepRel(g, al, s, s', st)
    ensures Runs(g, al, s, [st], s')
  {
    assert [st][..0] == [];
    assert LastStep(g, al, s, [st], s, s');
  }

  lemma OneStop(g: Graph, al: Buffers, s: PState, st: Step)
    requires StepAborts(g, al, s, st)
    ensures Stops(g, al, s, [st])
  {
    assert [st][..0] == [];
    assert StopsAt(g, al, s, [st], 0, s);
  }

  lemma OneMoreStep(g: Graph, al: Buffers, s: PState, steps: seq<Step>, mid: PState, st: Step, s': PState)
    requires Runs(g, al, s, steps, mid) && StepRel(g, al, mid, s', st)
    ensures Runs(g, al, s, steps + [st], s')
  {
    var more := steps + [st];
    assert more[..|more| - 1] == steps && more[|more| - 1] == st;
    assert LastStep(g, al, s, more, mid, s');
  }

  lemma {:induction false} RunsCompose(g: Graph, al: Buffers, s: PState, a: seq<Step>, m: PState, b: seq<Step>,
                                       s': PState)
    requires Runs(g, al, s, a, m) && Runs(g, al, m, b, s')
    ensures Runs(g, al, s, a + b, s')
    decreases |b|
  {
    if b == [] {
      assert a + b == a;
    } else {
      var mid :| LastStep(g, al, m, b, mid, s');
      RunsCompose(g, al, s, a, m, b[..|b| - 1], mid);
      assert a + b == a + b[..|b| - 1] + [b[|b| - 1]];
      OneMoreStep(g, al, s, a + b[..|b| - 1], mid, b[|b| - 1], s');
    }
  }

  /** First `a`, then `b`. */
  lemma DoesBoth(g: Graph, al: Buffers, s: PState, a: seq<Step>, m: PState, b: seq<Step>, s': PState, ok: bool)
    requires Runs(g, al, s, a, m) && Does(g, al, m, b, s', ok)
    ensures Does(g, al, s, a + b, s', ok)
  {
    if ok {
      RunsCompose(g, al, s, a, m, b, s');
    } else {
      var k: nat, mid: PState :| StopsAt(g, al, m, b, k, mid);
      RunsCompose(g, al, s, a, m, b[..k], mid);
      assert (a + b)[..|a| + k] == a + b[..k];
      assert StopsAt(g, al, s, a + b, |a| + k, mid);
    }
  }

  /** Whatever was to come after a stop is not reached. */
  lemma StopsFirst(g: Graph, al: Buffers, s: PState, a: seq<Step>, c: seq<Step>)
    requires Stops(g, al, s, a) && a <= c
    ensures Stops(g, al, s, c)
  {
    var k: nat, mid: PState :| StopsAt(g, al, s, a, k, mid);
    assert c[..k] == a[..k];
    assert StopsAt(g, al, s, c, k, mid);
  }

  /** The steps up to a stop, or all of them, stand for the whole program. */
  lemma DoesAll(g: Graph, al: Buffers, s: PState, a: seq<Step>, c: seq<Step>, s': PState, ok: bool)
    requires Does(g, al, s, a, s', ok) && a <= c && (ok ==> a == c)
    ensures Does(g, al, s, c, s', ok)
  {
    if !ok { StopsFirst(g, al, s, a, c); }
  }

  lemma {:induction false} LeafStepsGrow(g: Graph, bs: seq<nat>, n: nat, m: nat)
    requires n <= m <= |g.leafs| == |bs|
    ensures LeafSteps(g, bs, n) <= LeafSteps(g, bs, m)
  {
    if n < m { LeafStepsGrow(g, bs, n, m - 1); }
  }

  lemma {:induction false} CountStepsGrow(g: Graph, i: nat, b: nat, j: nat, k: nat)
    requires i < |g.nodes| && j <= k <= |Src(g, i)|
    ensures CountSteps(g, i, b, j) <= CountSteps(g, i, b, k)
  {
    if j < k { CountStepsGrow(g, i, b, j, k - 1); }
  }

  lemma {:induction false} CountAllGrows(g: Graph, bs: seq<nat>, n: nat, m: nat)
    requires n <= m <= |g.nodes| == |bs|
    ensures CountAll(g, bs, n) <= CountAll(g, bs, m)
  {
    if n < m { CountAllGrows(g, bs, n, m - 1); }
  }

  lemma {:induction false} NodeStepsGrow(g: Graph, i: nat, b: nat, j: nat, k: nat)
    requires i < |g.nodes| && j <= k <= |Src(g, i)|
    ensures NodeSteps(g, i, b, j) <= NodeSteps(g, i, b, k)
  {
    if j < k { NodeStepsGrow(g, i, b, j, k - 1); }
  }

  lemma {:induction false} WalkStepsGrow(g: Graph, bs: seq<nat>, n: nat, m: nat)
    requires n <= m <= |g.nodes| == |bs|
    ensures WalkSteps(g, bs, n) <= WalkSteps(g, bs, m)
  {
    if n < m { WalkStepsGrow(g, bs, n, m - 1); }
  }

  // ---- runs, state by state

  ghost predicate TraceStep(g: Graph, al: Buffers, trace: seq<PState>, steps: seq<Step>, k: nat)
    requires k + 1 < |trace| && k < |steps|
  {
    StepRel(g, al, trace[k], trace[k + 1], steps[k])
  }

  lemma {:induction false} TraceOf(g: Graph, al: Buffers, s: PState, steps: seq<Step>, s': PState)
    returns (trace: seq<PState>)
    requires Runs(g, al, s, steps, s')
    ensures |trace| == |steps| + 1 && trace[0] == s && trace[|steps|] == s'
    ensures forall k :: 0 <= k < |steps| ==> TraceStep(g, al, trace, steps, k)
    decreases |steps|
  {
    if steps == [] {
      trace := [s];
    } else {
      var mid :| LastStep(g, al, s, steps, mid, s');
      var n := |steps| - 1;
      var before := TraceOf(g, al, s, steps[..n], mid);
      trace := before + [s'];
      forall k | 0 <= k < |steps| ensures TraceStep(g, al, trace, steps, k) {
        if k < n { assert TraceStep(g, al, before, steps[..n], k); }
      }
    }
  }

  lemma {:induction false} TraceRuns(g: Graph, al: Buffers, trace: seq<PState>, steps: seq<Step>)
    requires |trace| == |steps| + 1 && forall k :: 0 <= k < |steps| ==> TraceStep(g, al, trace, steps, k)
    ensures Runs(g, al, trace[0], steps, trace[|steps|])
    decreases |steps|
  {
    if steps != [] {
      var n := |steps| - 1;
      var before, first := trace[..n + 1], steps[..n];
      forall k | 0 <= k < n ensures TraceStep(g, al, before, first, k) { assert TraceStep(g, al, trace, steps, k); }
      TraceRuns(g, al, before, first);
      assert TraceStep(g, al, trace, steps, n);
      assert LastStep(g, al, trace[0], steps, trace[n], trace[n + 1]);
    }
  }

  // ---- runs are determined

  lemma AllocateIsUnique(g: Graph, al: Buffers, s: PState, s1: PState, s2: PState, t: nat, b: nat)
    requires t < |g.tensors| == |s.hn| && AllocateRel(g, al, s, s1, t, b) && AllocateRel(g, al, s, s2, t, b)
    ensures s1 == s2
  {
    if !Skipped(g, s.hn, t) {
      match InplaceParent(g, s.hn, t)
      case Some(p) =>
        var pb := s.hn[p].bufferId;
        var n, m := Reserved(g, al, t, pb), Reserved(g, al, p, pb);
        GivenBackIsUnique(s.views[pb], s1.views[pb], s2.views[pb], s.hn[p].addr, n, m);
        OneBufferDiffers(s.views, s1.views, s2.views, pb);
      case None =>
        var n, limit := Reserved(g, al, t, b), al[b].maxChunkSize;
        ServedIsUnique(s.views[b], s1.views[b], s2.views[b], s1.hn[t].addr, s2.hn[t].addr, n, limit);
        OneBufferDiffers(s.views, s1.views, s2.views, b);
    }
  }

  lemma GivenBackIsUnique(vs: seq<View>, v1: seq<View>, v2: seq<View>, a: Addr, keep: nat, whole: nat)
    requires GivenBack(vs, v1, a, keep, whole) && GivenBack(vs, v2, a, keep, whole)
    ensures v1 == v2
  {
    if keep < whole {
      ReleasedInIsUnique(vs, v1, v2, Addr(a.chunk, a.offset + keep), whole - keep, a.offset);
    }
  }

  lemma OneBufferDiffers(vs: seq<seq<View>>, v1: seq<seq<View>>, v2: seq<seq<View>>, b: nat)
    requires |v1| == |v2| == |vs| && b < |vs| && v1[b] == v2[b]
    requires forall c :: 0 <= c < |vs| && c != b ==> v1[c] == vs[c]
    requires forall c :: 0 <= c < |vs| && c != b ==> v2[c] == vs[c]
    ensures v1 == v2
  {
    forall c | 0 <= c < |vs| ensures v1[c] == v2[c] {}
  }

  lemma SlotIsUnique(g: Graph, al: Buffers, s: PState, s1: PState, s2: PState, p: nat)
    requires p < |g.tensors| == |s.hn| && SlotRel(g, al, s, s1, p) && SlotRel(g, al, s, s2, p)
    ensures s1 == s2
  {
    var mid := PState(CrossOff(g, s.hn, p), s.views);
    var r := ToFree(g, mid.hn, p);
    if r.Some? && !g.tensors[r.value].output {
      var t, b := r.value, mid.hn[r.value].bufferId;
      GivenBackIsUnique(mid.views[b], s1.views[b], s2.views[b], mid.hn[t].addr, 0, Reserved(g, al, t, b));
      OneBufferDiffers(mid.views, s1.views, s2.views, b);
    }
  }

  lemma StepIsUnique(g: Graph, al: Buffers, s: PState, s1: PState, s2: PState, st: Step)
    requires StepRel(g, al, s, s1, st) && StepRel(g, al, s, s2, st)
    ensures s1 == s2
  {
    match st
    case Give(t, b) => AllocateIsUnique(g, al, s, s1, s2, t, b);
    case Pass(t) => SlotIsUnique(g, al, s, s1, s2, t);
    case _ =>
      if g.tensors[st.t].input { AllocateIsUnique(g, al, Counted(g, s, st), s1, s2, st.t, st.b); }
  }

  /** A program leads to one state only. */
  lemma {:induction false} RunsAreUnique(g: Graph, al: Buffers, s: PState, steps: seq<Step>, s1: PState, s2: PState)
    requires Runs(g, al, s, steps, s1) && Runs(g, al, s, steps, s2)
    ensures s1 == s2
    decreases |steps|
  {
    if steps != [] {
      var m1 :| LastStep(g, al, s, steps, m1, s1);
      var m2 :| LastStep(g, al, s, steps, m2, s2);
      RunsAreUnique(g, al, s, steps[..|steps| - 1], m1, m2);
      StepIsUnique(g, al, m1, s1, s2, steps[|steps| - 1]);
    }
  }

  lemma PrefixOfTrace(g: Graph, al: Buffers, trace: seq<PState>, steps: seq<Step>, k: nat)
    requires |trace| == |steps| + 1 && forall j :: 0 <= j < |steps| ==> TraceStep(g, al, trace, steps, j)
    requires k <= |steps|
    ensures Runs(g, al, trace[0], steps[..k], trace[k])
  {
    var some, first := trace[..k + 1], steps[..k];
    forall j | 0 <= j < k ensures TraceStep(g, al, some, first, j) { assert TraceStep(g, al, trace, steps, j); }
    TraceRuns(g, al, some, first);
  }

  /** A program that can be run does not stop: whether the planner stops is determined by the graph and
      the state it starts in. */
  lemma RunsDoNotStop(g: Graph, al: Buffers, s: PState, steps: seq<Step>, s': PState)
    requires Runs(g, al, s, steps, s')
    ensures !Stops(g, al, s, steps)
  {
    var trace := TraceOf(g, al, s, steps, s');
    forall k: nat, mid: PState ensures !StopsAt(g, al, s, steps, k, mid) {
      if k < |steps| {
        assert TraceStep(g, al, trace, steps, k);
        PrefixOfTrace(g, al, trace, steps, k);
        if Runs(g, al, s, steps[..k], mid) { RunsAreUnique(g, al, s, steps[..k], mid, trace[k]); }
      }
    }
  }
}
