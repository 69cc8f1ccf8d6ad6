/** The first four passes of the scheduler: every node gets a backend. */
module SchedAssign {
  import opened Wrappers
  import opened SchedGraphs

  /** Ids change only where there was none. */
  ghost predicate OnlyFills(before: seq<int>, after: seq<int>) {
    |after| == |before| && forall t :: 0 <= t < |before| && before[t] != UNASSIGNED ==> after[t] == before[t]
  }

  /** A computing node that was not pinned and is not an input has, if any, a backend that supports its
      operation. */
  ghost predicate NodeSupported(g: OpGraph, e: Backends, pinned: seq<int>, ids: seq<int>, t: nat)
    requires t < |g.tensors| == |pinned| == |ids|
  {
    !g.tensors[t].viewOp && !g.tensors[t].input && pinned[t] == UNASSIGNED && ids[t] != UNASSIGNED ==>
      0 <= ids[t] < |e.bufts| && e.supportsOp(ids[t], t)
  }

  class Scheduler {
    const e: Backends
    var ids: array<int>

    constructor (e: Backends, nTensors: nat)
      ensures this.e == e && fresh(ids) && ids.Length == nTensors
      ensures forall t :: 0 <= t < nTensors ==> ids[t] == UNASSIGNED
    {
      this.e := e;
      ids := new int[nTensors](_ => UNASSIGNED);
    }

    /** The first backend that supports both the memory `t` lives in and the operation of `op`. */
    method BackendFromBuffer(g: OpGraph, t: nat, op: nat) returns (id: int)
      requires t < |g.tensors|
      ensures UNASSIGNED <= id < |e.bufts| && FirstFit(g, e, t, op, id)
    {
      var buffer := MemoryOf(g, t);
      if buffer.None? { return UNASSIGNED; }
      var i := 0;
      while i < |e.bufts|
        invariant i <= |e.bufts| && forall b: nat :: b < i ==> !FitsMemory(g, e, t, op, b)
      {
        if e.supportsBuft(i, buffer.value.buft) && e.supportsOp(i, op) {
          assert FitsMemory(g, e, t, op, i);
          return i;
        }
        i := i + 1;
      }
      id := UNASSIGNED;
    }

    /** The first backend before `id` that takes the operation over, else `id`. */
    method OffloadTo(t: nat, id: nat) returns (b: nat)
      ensures b <= id && (b < id ==> WillOffload(e, t, b)) && forall c: nat :: c < b ==> !WillOffload(e, t, c)
    {
      b := 0;
      while b < id
        invariant b <= id && forall c: nat :: c < b ==> !WillOffload(e, t, c)
      {
        if e.supportsOp(b, t) && e.offload(b, t) { return; }
        b := b + 1;
      }
    }

    /** Where an operation that reads the weight `src` belongs. */
    method BackendOfWeight(g: OpGraph, t: nat, src: nat) returns (id: int)
      requires src < |g.tensors| && g.tensors[src].buffer.Some?
      ensures UNASSIGNED <= id < |e.bufts| && FollowsWeight(g, e, t, src, id)
    {
      id := BackendFromBuffer(g, src, t);
      if e.opOffload && id == |e.bufts| - 1 && g.tensors[src].buffer.value.host {
        var b := OffloadTo(t, id);
        assert b < id ==> TakenOver(g, e, t, src);
        id := b;
      }
    }

    /** The backend suggested by where the tensor, or a weight it uses, already is. */
    method BackendIdFromCur(g: OpGraph, t: nat) returns (id: int)
      requires t < |g.tensors|
      ensures UNASSIGNED <= id < |e.bufts| && Suggested(g, e, t, id)
    {
      id := BackendFromBuffer(g, t, t);
      if id != UNASSIGNED { return; }
      if g.tensors[t].viewSrc.Some? {
        id := BackendFromBuffer(g, g.tensors[t].viewSrc.value, t);
        if id != UNASSIGNED { return; }
      }
      if g.tensors[t].input { return |e.bufts| - 1; }
      var i := 0;
      while i < |g.tensors[t].src|
        invariant i <= |g.tensors[t].src| && forall j: nat :: j < i ==> !IsWeight(g, t, j)
      {
        var src := g.tensors[t].src[i];
        var buffer := g.tensors[src].buffer;
        if !g.tensors[t].rope && buffer.Some? && buffer.value.weights {
          assert FirstWeight(g, t, i);
          id := BackendOfWeight(g, t, src);
          return;
        }
        i := i + 1;
      }
      id := UNASSIGNED;
    }

    /** Pass 1: leafs and nodes without an id follow the memory they already have. */
    method AssignFromBuffers(g: OpGraph)
      requires IdsOk(g, e, ids[..])
      modifies ids
      ensures IdsOk(g, e, ids[..]) && FilledFromMemory(g, e, old(ids[..]), ids[..], g.leafs + g.nodes)
    {
      AssignAll(g, g.leafs);
      AssignAll(g, g.nodes);
    }

    method AssignAll(g: OpGraph, list: seq<nat>)
      requires IdsOk(g, e, ids[..]) && forall i :: 0 <= i < |list| ==> list[i] < |g.tensors|
      modifies ids
      ensures IdsOk(g, e, ids[..]) && FilledFromMemory(g, e, old(ids[..]), ids[..], list)
    {
      var i := 0;
      while i < |list|
        invariant i <= |list| && IdsOk(g, e, ids[..])
        invariant FilledFromMemory(g, e, old(ids[..]), ids[..], list[..i])
      {
        if ids[list[i]] == UNASSIGNED {
          var id := BackendIdFromCur(g, list[i]);
          ids[list[i]] := id;
        }
        assert list[..i + 1] == list[..i] + [list[i]];
        i := i + 1;
      }
    }

    /** Sets the id only if the backend supports the operation. */
    method SetIfSupported(t: nat, b: nat)
      requires t < ids.Length
      modifies ids
      ensures ids[..] == old(ids[..])[t := if e.supportsOp(b, t) then b else old(ids[t])]
    {
      if e.supportsOp(b, t) { ids[t] := b; }
    }

    /** What every sweep of pass 2 does at a node: pick up its id, or offer it the carried one. */
    method Visit(g: OpGraph, t: nat, cur: int, skipCpu: bool) returns (next: int)
      requires IdsOk(g, e, ids[..]) && t < |g.tensors| && UNASSIGNED <= cur < |e.bufts|
      requires skipCpu ==> cur != |e.bufts| - 1
      modifies ids
      ensures ids[..] == old(ids[..])[t := Offered(g, e, old(ids[..]), t, cur)]
      ensures next == Carry(g, e, ids[..], t, cur, skipCpu)
    {
      next := cur;
      if !g.tensors[t].viewOp {
        if ids[t] != UNASSIGNED {
          next := if skipCpu && ids[t] == |e.bufts| - 1 then UNASSIGNED else ids[t];
        } else if cur != UNASSIGNED {
          SetIfSupported(t, cur);
        }
      }
    }

    /** Pass 2, downwards: nodes without an id take that of the closest assigned node above, if it
        supports them; with `skipCpu` nothing is carried past a node on the last backend. */
    method ExpandDown(g: OpGraph, skipCpu: bool)
      requires IdsOk(g, e, ids[..]) && Distinct(g)
      modifies ids
      ensures SweptDown(g, e, old(ids[..]), ids[..], |g.nodes|, skipCpu)
    {
      ghost var before := ids[..];
      var cur := UNASSIGNED;
      var i := 0;
      while i < |g.nodes|
        invariant i <= |g.nodes| && SweptDown(g, e, before, ids[..], i, skipCpu)
        invariant cur == Above(g, e, ids[..], i, skipCpu)
      {
        ghost var now := ids[..];
        AboveInRange(g, e, now, i, skipCpu);
        DownStep(g, e, before, now, i, skipCpu);
        cur := Visit(g, g.nodes[i], cur, skipCpu);
        i := i + 1;
      }
    }

    /** Pass 2, upwards. */
    method ExpandUp(g: OpGraph, skipCpu: bool)
      requires IdsOk(g, e, ids[..]) && Distinct(g)
      modifies ids
      ensures SweptUp(g, e, old(ids[..]), ids[..], 0, skipCpu)
    {
      var cur := UNASSIGNED;
      var i: nat := |g.nodes|;
      while i > 0
        invariant 0 <= i <= |g.nodes| && SweptUp(g, e, old(ids[..]), ids[..], i, skipCpu)
        invariant i > 0 ==> cur == Below(g, e, ids[..], i - 1, skipCpu)
      {
        i := i - 1;
        ghost var now := ids[..];
        BelowInRange(g, e, now, i, skipCpu);
        cur := Visit(g, g.nodes[i], cur, skipCpu);
        UpStep(g, e, old(ids[..]), now, i, skipCpu);
      }
    }

    /** Pass 2: the assigned backends spread over the nodes, first without and then with the last one. */
    method Expand(g: OpGraph)
      requires IdsOk(g, e, ids[..]) && Distinct(g)
      modifies ids
      ensures IdsOk(g, e, ids[..]) && Expanded(g, e, old(ids[..]), ids[..])
    {
      ExpandDown(g, true);
      ghost var s1 := ids[..];
      ExpandUp(g, true);
      ghost var s2 := ids[..];
      ExpandDown(g, false);
      ghost var s3 := ids[..];
      ExpandUp(g, false);
      assert SweptDown(g, e, old(ids[..]), s1, |g.nodes|, true) && SweptUp(g, e, s1, s2, 0, true);
      assert SweptDown(g, e, s2, s3, |g.nodes|, false) && SweptUp(g, e, s3, ids[..], 0, false);
    }

    /** The number of sources of `t` that backend `b` can read where they are. */
    method SupportedInputs(g: OpGraph, t: nat, b: nat) returns (n: nat)
      requires IdsOk(g, e, ids[..]) && t < |g.tensors|
      ensures n == CountSupported(g, e, ids[..], g.tensors[t].src, b)
    {
      n := 0;
      var src := g.tensors[t].src;
      var j := 0;
      while j < |src|
        invariant j <= |src| && n == CountSupported(g, e, ids[..], src[..j], b)
      {
        assert src[..j + 1][..j] == src[..j];
        if Located(g, ids[..], src[j]) && BufferSupported(g, e, ids[..], src[j], b) { n := n + 1; }
        j := j + 1;
      }
      assert src[..j] == src;
    }

    /** The supporting backend that can read most of the sources, the first of them on ties. */
    method BestBackend(g: OpGraph, t: nat) returns (best: int)
      requires IdsOk(g, e, ids[..]) && t < |g.tensors|
      ensures UNASSIGNED <= best < |e.bufts|
      ensures if best == UNASSIGNED then NoneSupports(e, t) else BestAmong(g, e, ids[..], t, |e.bufts|, best)
    {
      best := UNASSIGNED;
      var nBest: int := -1;
      var b := 0;
      while b < |e.bufts|
        invariant b <= |e.bufts| && UNASSIGNED <= best < b
        invariant best == UNASSIGNED ==> nBest == -1 && forall c: nat :: c < b ==> !e.supportsOp(c, t)
        invariant best != UNASSIGNED ==>
            BestAmong(g, e, ids[..], t, b, best) && nBest == CountSupported(g, e, ids[..], g.tensors[t].src, best)
      {
        if e.supportsOp(b, t) {
          var n := SupportedInputs(g, t, b);
          if n > nBest { nBest, best := n, b; }
        }
        b := b + 1;
      }
    }

    /** The first backend before the assigned one that allocates in the same buffer type, supports
        the operation and can read every source; the assigned one if there is none. */
    method UpgradeTarget(g: OpGraph, t: nat) returns (target: nat)
      requires IdsOk(g, e, ids[..]) && t < |g.tensors| && ids[t] != UNASSIGNED
      ensures FirstMove(g, e, ids[..], t, target)
    {
      var b := 0;
      while b < ids[t]
        invariant b <= ids[t] && forall c: nat :: c < b ==> !CanMoveTo(g, e, ids[..], t, c)
      {
        if e.bufts[b] == e.bufts[ids[t]] && e.supportsOp(b, t) {
          var supported := true;
          var j := 0;
          while j < |g.tensors[t].src| && supported
            invariant j <= |g.tensors[t].src|
            invariant supported <==> forall k :: 0 <= k < j ==> BufferSupported(g, e, ids[..], g.tensors[t].src[k], b)
          {
            supported := BufferSupported(g, e, ids[..], g.tensors[t].src[j], b);
            j := j + 1;
          }
          if supported { return b; }
        }
        b := b + 1;
      }
      target := ids[t];
    }

    /** Pass 3: assigned nodes move to a backend of higher priority, the others get the backend that
        can read most of their sources. */
    method Upgrade(g: OpGraph)
      requires IdsOk(g, e, ids[..]) && Distinct(g)
      modifies ids
      ensures IdsOk(g, e, ids[..]) && Upgraded(g, e, old(ids[..]), ids[..], |g.nodes|)
    {
      ghost var before := ids[..];
      var i := 0;
      while i < |g.nodes|
        invariant i <= |g.nodes| && IdsOk(g, e, ids[..]) && Upgraded(g, e, before, ids[..], i)
      {
        var node := g.nodes[i];
        ghost var now := ids[..];
        if !g.tensors[node].viewOp {
          if ids[node] == UNASSIGNED {
            var best := BestBackend(g, node);
            ids[node] := best;
          } else {
            var target := UpgradeTarget(g, node);
            ids[node] := target;
          }
        }
        UpgradeStep(g, e, before, now, ids[..], i);
        i := i + 1;
      }
    }

    /** Pass 4 at one node: a view follows its root, sources without an id follow their root or the
        node, and the node itself falls back on the first backend that supports it. */
    method AssignRestAt(g: OpGraph, i: nat)
      requires IdsOk(g, e, ids[..]) && i < |g.nodes|
      modifies ids
      ensures IdsOk(g, e, ids[..]) && ids[..] == RestAt(g, e, old(ids[..]), i)
    {
      var node := g.nodes[i];
      if g.tensors[node].viewSrc.Some? && ids[node] == UNASSIGNED {
        ids[node] := ids[g.tensors[node].viewSrc.value];
      }
      assert ids[..] == AfterView(g, old(ids[..]), i);
      AssignSources(g, i);
      AssignFirst(node);
    }

    /** The first backend that supports the operation of `t`, if `t` has none yet. */
    method AssignFirst(t: nat)
      requires t < ids.Length && UNASSIGNED <= ids[t] < |e.bufts|
      modifies ids
      ensures ids[..] == if old(ids[t]) == UNASSIGNED then old(ids[..])[t := FirstSupporting(e, t, 0)] else old(ids[..])
    {
      ghost var was := ids[..];
      var b := 0;
      while b < |e.bufts| && ids[t] == UNASSIGNED
        invariant b <= |e.bufts| && ids[..] == was[t := ids[t]] && UNASSIGNED <= ids[t] < |e.bufts|
        invariant was[t] != UNASSIGNED ==> ids[t] == was[t]
        invariant was[t] == UNASSIGNED ==>
            FirstSupporting(e, t, 0) == if ids[t] == UNASSIGNED then FirstSupporting(e, t, b) else ids[t]
      {
        SetIfSupported(t, b);
        b := b + 1;
      }
    }

    method AssignSources(g: OpGraph, i: nat)
      requires IdsOk(g, e, ids[..]) && i < |g.nodes|
      modifies ids
      ensures IdsOk(g, e, ids[..]) && ids[..] == AfterSlots(g, old(ids[..]), i, |Src(g, i)|)
    {
      var node := g.nodes[i];
      var j := 0;
      while j < |Src(g, i)|
        invariant j <= |Src(g, i)| && IdsOk(g, e, ids[..]) && ids[..] == AfterSlots(g, old(ids[..]), i, j)
      {
        var src := Src(g, i)[j];
        if ids[src] == UNASSIGNED {
          if g.tensors[src].viewSrc.Some? {
            ids[src] := ids[g.tensors[src].viewSrc.value];
          } else {
            ids[src] := ids[node];
          }
        }
        j := j + 1;
      }
    }

    /** Pass 4. Stops with false at the assertion that every node has a backend. */
    method AssignRest(g: OpGraph) returns (ok: bool)
      requires IdsOk(g, e, ids[..])
      modifies ids
      ensures IdsOk(g, e, ids[..]) && RestOutcome(g, e, old(ids[..]), ids[..], ok)
    {
      ghost var trace := [ids[..]];
      ok := true;
      var i := 0;
      while i < |g.nodes| && ok
        invariant i <= |g.nodes| && IdsOk(g, e, ids[..])
        invariant RestRun(g, e, old(ids[..]), trace) && |trace| == i + 1 && trace[i] == ids[..]
        invariant if ok then AllAssigned(g, trace, i) else StoppedAfter(g, trace, i)
      {
        AssignRestAt(g, i);
        RestGoesOn(g, e, old(ids[..]), trace, ids[..], i);
        trace := trace + [ids[..]];
        ok := ids[g.nodes[i]] != UNASSIGNED;
        i := i + 1;
      }
    }

    /** Passes 1 to 4, starting from the ids the user set beforehand. */
    method AssignBackends(g: OpGraph) returns (ok: bool)
      requires IdsOk(g, e, ids[..]) && Ordered(g)
      modifies ids
      ensures IdsOk(g, e, ids[..]) && Outcome(g, e, old(ids[..]), ids[..], ok)
      ensures Supportable(g, e) ==> ok && Assigned(g, e, old(ids[..]), ids[..])
    {
      ghost var pinned := ids[..];
      AssignFromBuffers(g);
      ghost var s1 := ids[..];
      Expand(g);
      ghost var s2 := ids[..];
      Upgrade(g);
      ghost var s3 := ids[..];
      ok := AssignRest(g);
      assert ThreePasses(g, e, pinned, s3);
      if Supportable(g, e) { PassesAssign(g, e, pinned, ids[..], ok); }
    }
  }

  /** Nodes are distinct, every source or root that is itself a node is an earlier one, and views are
      flattened to a root that is not a view. */
  ghost predicate Ordered(g: OpGraph) {
    && Distinct(g) && SourcesFirst(g)
    && (forall t :: 0 <= t < |g.tensors| && g.tensors[t].viewSrc.Some? ==> g.tensors[Root(g, t)].viewSrc.None?)
    && (forall i, k ::
        0 <= i <= k < |g.nodes| && g.tensors[g.nodes[i]].viewSrc.Some? ==> Root(g, g.nodes[i]) != g.nodes[k])
  }

  ghost predicate SourcesFirst(g: OpGraph) {
    forall i, k :: 0 <= i <= k < |g.nodes| ==> g.nodes[k] !in Src(g, i)
  }

  ghost predicate NodeSupportable(g: OpGraph, e: Backends, i: nat)
    requires i < |g.nodes|
  {
    exists b: nat :: b < |e.bufts| && e.supportsOp(b, g.nodes[i])
  }

  /** Every node's operation has a backend. */
  ghost predicate Supportable(g: OpGraph, e: Backends) {
    forall i :: 0 <= i < |g.nodes| ==> NodeSupportable(g, e, i)
  }

  /** `t` has an id, unless it is a view. */
  ghost predicate SourceAssigned(g: OpGraph, ids: seq<int>, t: nat)
    requires t < |g.tensors| == |ids|
  {
    ids[t] != UNASSIGNED || g.tensors[t].viewSrc.Some?
  }

  /** All sources have ids, except for views that are not nodes. */
  ghost predicate SourcesAssigned(g: OpGraph, ids: seq<int>, i: nat)
    requires i < |g.nodes| && |ids| == |g.tensors|
  {
    forall j ::
        0 <= j < |Src(g, i)| ==>
        ids[Src(g, i)[j]] != UNASSIGNED || (g.tensors[Src(g, i)[j]].viewSrc.Some? && Src(g, i)[j] !in g.nodes)
  }

  /** Node `i` is a view of a node. */
  ghost predicate ViewOfNode(g: OpGraph, i: nat)
    requires i < |g.nodes|
  {
    g.tensors[g.nodes[i]].viewSrc.Some? && Root(g, g.nodes[i]) in g.nodes
  }

  /** Node `k` is a view without an id, of a node or of a tensor with an id. */
  ghost predicate ViewSettled(g: OpGraph, before: seq<int>, k: nat)
    requires k < |g.nodes| && |before| == |g.tensors|
  {
    before[g.nodes[k]] == UNASSIGNED && g.tensors[g.nodes[k]].viewSrc.Some?
        && (ViewOfNode(g, k) || before[Root(g, g.nodes[k])] != UNASSIGNED)
  }

  /** What pass 4 has established for the first `n` nodes. */
  ghost predicate RestAssigned(g: OpGraph, before: seq<int>, ids: seq<int>, n: nat) {
    && |before| == |ids| == |g.tensors| && n <= |g.nodes|
    && (forall k :: 0 <= k < n ==> ids[g.nodes[k]] != UNASSIGNED)
    && (forall k :: 0 <= k < n && before[g.nodes[k]] != UNASSIGNED ==> SourcesAssigned(g, ids, k))
    && (forall k :: 0 <= k < n && ViewSettled(g, before, k) ==> ids[g.nodes[k]] == ids[Root(g, g.nodes[k])])
  }

  /** Pass 4 at node `i`, first step: a view without an id takes that of its root. */
  function AfterView(g: OpGraph, ids: seq<int>, i: nat): (r: seq<int>)
    requires |ids| == |g.tensors| && i < |g.nodes|
    ensures |r| == |ids|
  {
    var t := g.nodes[i];
    if g.tensors[t].viewSrc.Some? && ids[t] == UNASSIGNED then ids[t := ids[Root(g, t)]] else ids
  }

  /** Second step: the first `j` sources without an id take that of their root or of the node. */
  function AfterSlots(g: OpGraph, ids: seq<int>, i: nat, j: nat): (r: seq<int>)
    requires |ids| == |g.tensors| && i < |g.nodes| && j <= |Src(g, i)|
    ensures |r| == |ids|
  {
    if j == 0 then ids
    else
      var now := AfterSlots(g, ids, i, j - 1);
      var src := Src(g, i)[j - 1];
      if now[src] != UNASSIGNED then now
      else now[src := now[if g.tensors[src].viewSrc.Some? then Root(g, src) else g.nodes[i]]]
  }

  /** The first backend from `b` on that supports the operation of `t`. */
  function FirstSupporting(e: Backends, t: nat, b: nat): (id: int)
    ensures UNASSIGNED <= id < |e.bufts|
    ensures id == UNASSIGNED ==> forall c: nat :: b <= c < |e.bufts| ==> !e.supportsOp(c, t)
    ensures id != UNASSIGNED ==> b <= id && e.supportsOp(id, t) && forall c: nat :: b <= c < id ==> !e.supportsOp(c, t)
    decreases |e.bufts| - b
  {
    if b >= |e.bufts| then UNASSIGNED else if e.supportsOp(b, t) then b else FirstSupporting(e, t, b + 1)
  }

  function RestAt(g: OpGraph, e: Backends, ids: seq<int>, i: nat): (r: seq<int>)
    requires |ids| == |g.tensors| && i < |g.nodes|
    ensures |r| == |ids|
  {
    var filled := AfterSlots(g, AfterView(g, ids, i), i, |Src(g, i)|);
    if filled[g.nodes[i]] == UNASSIGNED then filled[g.nodes[i] := FirstSupporting(e, g.nodes[i], 0)] else filled
  }

  ghost predicate StepAt(g: OpGraph, e: Backends, trace: seq<seq<int>>, k: nat)
    requires k + 1 < |trace| && k < |g.nodes|
  {
    |trace[k]| == |g.tensors| && trace[k + 1] == RestAt(g, e, trace[k], k)
  }

  /** `trace` lists the ids before, between and after the nodes that pass 4 has handled. */
  ghost predicate RestRun(g: OpGraph, e: Backends, before: seq<int>, trace: seq<seq<int>>) {
    && 0 < |trace| <= |g.nodes| + 1 && trace[0] == before && |before| == |g.tensors|
    && forall k :: 0 <= k < |trace| - 1 ==> StepAt(g, e, trace, k)
  }

  /** Node `k` had an id when pass 4 left it. */
  ghost predicate AssignedAt(g: OpGraph, trace: seq<seq<int>>, k: nat)
    requires k + 1 < |trace| && k < |g.nodes|
  {
    |trace[k + 1]| == |g.tensors| && trace[k + 1][g.nodes[k]] != UNASSIGNED
  }

  ghost predicate AllAssigned(g: OpGraph, trace: seq<seq<int>>, n: nat) {
    n < |trace| && n <= |g.nodes| && forall k :: 0 <= k < n ==> AssignedAt(g, trace, k)
  }

  /** The `n`-th node was the first without an id. */
  ghost predicate StoppedAfter(g: OpGraph, trace: seq<seq<int>>, n: nat) {
    0 < n < |trace| && n <= |g.nodes| && AllAssigned(g, trace, n - 1) && !AssignedAt(g, trace, n - 1)
  }

  ghost predicate RestEnds(g: OpGraph, e: Backends, before: seq<int>, trace: seq<seq<int>>, ok: bool) {
    RestRun(g, e, before, trace) &&
    if ok then |trace| == |g.nodes| + 1 && AllAssigned(g, trace, |g.nodes|) else StoppedAfter(g, trace, |trace| - 1)
  }

  /** What pass 4 amounts to: it handles the nodes in order and stops at the first one without an id. */
  ghost predicate RestOutcome(g: OpGraph, e: Backends, before: seq<int>, ids: seq<int>, ok: bool) {
    exists trace: seq<seq<int>> :: RestEnds(g, e, before, trace, ok) && ids == trace[|trace| - 1]
  }

  lemma RestGoesOn(g: OpGraph, e: Backends, before: seq<int>, trace: seq<seq<int>>, next: seq<int>, i: nat)
    requires RestRun(g, e, before, trace) && |trace| == i + 1 && i < |g.nodes| && AllAssigned(g, trace, i)
    requires |trace[i]| == |g.tensors| && next == RestAt(g, e, trace[i], i)
    ensures RestRun(g, e, before, trace + [next])
    ensures if next[g.nodes[i]] != UNASSIGNED then AllAssigned(g, trace + [next], i + 1)
    else StoppedAfter(g, trace + [next], i + 1)
  {
    var longer := trace + [next];
    forall k | 0 <= k < |longer| - 1 ensures StepAt(g, e, longer, k) {
      if k < i { assert StepAt(g, e, trace, k); }
    }
    forall k | 0 <= k < i ensures AssignedAt(g, longer, k) {
      assert AssignedAt(g, trace, k);
    }
  }

  lemma {:induction false} SlotsFill(g: OpGraph, e: Backends, ids: seq<int>, i: nat, j: nat)
    requires IdsOk(g, e, ids) && i < |g.nodes| && j <= |Src(g, i)|
    ensures IdsOk(g, e, AfterSlots(g, ids, i, j)) && OnlyFills(ids, AfterSlots(g, ids, i, j))
    ensures forall t :: 0 <= t < |ids| && t !in Src(g, i) ==> AfterSlots(g, ids, i, j)[t] == ids[t]
    ensures ids[g.nodes[i]] != UNASSIGNED ==>
        forall k :: 0 <= k < j ==> SourceAssigned(g, AfterSlots(g, ids, i, j), Src(g, i)[k])
  {
    if j > 0 {
      SlotsFill(g, e, ids, i, j - 1);
    }
  }

  /** Pass 4 at node `i` only fills in ids, of the node and its sources. */
  ghost predicate Rested(g: OpGraph, e: Backends, ids: seq<int>, r: seq<int>, i: nat)
    requires i < |g.nodes| && |ids| == |g.tensors|
  {
    var t := g.nodes[i];
    && IdsOk(g, e, r) && OnlyFills(ids, r)
    && (r[t] == UNASSIGNED ==> NoneSupports(e, t))
    && (g.tensors[t].viewSrc.Some? && ids[t] == UNASSIGNED && ids[Root(g, t)] != UNASSIGNED ==> r[t] == ids[Root(g, t)])
    && (ids[t] != UNASSIGNED ==> forall j :: 0 <= j < |Src(g, i)| ==> SourceAssigned(g, r, Src(g, i)[j]))
    && (forall x :: 0 <= x < |r| && x != t && x !in Src(g, i) ==> r[x] == ids[x])
  }

  lemma RestAtFills(g: OpGraph, e: Backends, ids: seq<int>, i: nat)
    requires IdsOk(g, e, ids) && i < |g.nodes|
    ensures Rested(g, e, ids, RestAt(g, e, ids, i), i)
  {
    SlotsFill(g, e, AfterView(g, ids, i), i, |Src(g, i)|);
  }

  ghost predicate LaterUntouched(g: OpGraph, before: seq<int>, ids: seq<int>, n: nat) {
    && n <= |g.nodes| && |before| == |ids| == |g.tensors| && OnlyFills(before, ids)
    && forall k :: n <= k < |g.nodes| ==> ids[g.nodes[k]] == before[g.nodes[k]]
  }

  lemma LaterStep(g: OpGraph, e: Backends, before: seq<int>, now: seq<int>, next: seq<int>, i: nat)
    requires Distinct(g) && SourcesFirst(g) && i < |g.nodes| && LaterUntouched(g, before, now, i)
    requires Rested(g, e, now, next, i)
    ensures LaterUntouched(g, before, next, i + 1)
  {
    forall k | i + 1 <= k < |g.nodes| ensures next[g.nodes[k]] == before[g.nodes[k]] {
      assert g.nodes[k] !in Src(g, i) && g.nodes[k] != g.nodes[i];
    }
  }

  lemma RestNext(g: OpGraph, e: Backends, before: seq<int>, trace: seq<seq<int>>, i: nat)
    requires RestRun(g, e, before, trace) && i + 1 < |trace| && IdsOk(g, e, trace[i])
    ensures Rested(g, e, trace[i], trace[i + 1], i)
  {
    assert StepAt(g, e, trace, i);
    RestAtFills(g, e, trace[i], i);
  }

  lemma {:induction false} RestFills(g: OpGraph, e: Backends, before: seq<int>, trace: seq<seq<int>>, n: nat)
    requires Distinct(g) && SourcesFirst(g) && IdsOk(g, e, before) && RestRun(g, e, before, trace) && n < |trace|
    ensures IdsOk(g, e, trace[n]) && LaterUntouched(g, before, trace[n], n)
  {
    if n > 0 {
      RestFills(g, e, before, trace, n - 1);
      RestNext(g, e, before, trace, n - 1);
      LaterStep(g, e, before, trace[n - 1], trace[n], n - 1);
    }
  }

  lemma SupportedGetsId(g: OpGraph, e: Backends, before: seq<int>, trace: seq<seq<int>>, n: nat)
    requires Ordered(g) && IdsOk(g, e, before) && RestRun(g, e, before, trace) && n + 1 < |trace|
    requires NodeSupportable(g, e, n)
    ensures AssignedAt(g, trace, n)
  {
    RestFills(g, e, before, trace, n);
    RestNext(g, e, before, trace, n);
  }

  /** If every operation has a backend, the assertion of pass 4 never fires. */
  lemma RestCannotFail(g: OpGraph, e: Backends, before: seq<int>, trace: seq<seq<int>>, ok: bool)
    requires Ordered(g) && IdsOk(g, e, before) && Supportable(g, e) && RestEnds(g, e, before, trace, ok)
    ensures ok
  {
    if !ok { SupportedGetsId(g, e, before, trace, |trace| - 2); }
  }

  lemma {:induction false} RestAssigns(g: OpGraph, e: Backends, before: seq<int>, trace: seq<seq<int>>, n: nat)
    requires Ordered(g) && IdsOk(g, e, before) && RestRun(g, e, before, trace) && AllAssigned(g, trace, n)
    ensures RestAssigned(g, before, trace[n], n)
  {
    if n > 0 {
      assert AssignedAt(g, trace, n - 1);
      RestAssigns(g, e, before, trace, n - 1);
      RestFills(g, e, before, trace, n - 1);
      RestNext(g, e, before, trace, n - 1);
      RestStep(g, e, before, trace[n - 1], trace[n], n - 1);
    }
  }

  lemma RestPromises(g: OpGraph, e: Backends, before: seq<int>, ids: seq<int>, ok: bool)
    requires Ordered(g) && IdsOk(g, e, before) && Supportable(g, e) && RestOutcome(g, e, before, ids, ok)
    ensures ok && OnlyFills(before, ids) && RestAssigned(g, before, ids, |g.nodes|)
  {
    var trace: seq<seq<int>> :| RestEnds(g, e, before, trace, ok) && ids == trace[|trace| - 1];
    RestCannotFail(g, e, before, trace, ok);
    RestAssigns(g, e, before, trace, |g.nodes|);
    RestFills(g, e, before, trace, |g.nodes|);
  }

  lemma RestStep(g: OpGraph, e: Backends, before: seq<int>, now: seq<int>, ids: seq<int>, i: nat)
    requires Ordered(g) && i < |g.nodes| && RestAssigned(g, before, now, i)
    requires LaterUntouched(g, before, now, i) && Rested(g, e, now, ids, i) && ids[g.nodes[i]] != UNASSIGNED
    ensures RestAssigned(g, before, ids, i + 1)
  {
    forall k | 0 <= k < i + 1 && before[g.nodes[k]] != UNASSIGNED ensures SourcesAssigned(g, ids, k) {
      if k < i { assert SourcesAssigned(g, now, k); } else { NodeFeedsSources(g, e, before, now, ids, i); }
    }
    if ViewSettled(g, before, i) && ViewOfNode(g, i) {
      var k :| 0 <= k < |g.nodes| && g.nodes[k] == Root(g, g.nodes[i]);
      assert k < i;
    }
  }

  lemma NodeFeedsSources(g: OpGraph, e: Backends, before: seq<int>, now: seq<int>, ids: seq<int>, i: nat)
    requires Ordered(g) && i < |g.nodes| && RestAssigned(g, before, now, i)
    requires LaterUntouched(g, before, now, i) && Rested(g, e, now, ids, i) && before[g.nodes[i]] != UNASSIGNED
    ensures SourcesAssigned(g, ids, i)
  {
    forall j | 0 <= j < |Src(g, i)| && Src(g, i)[j] in g.nodes ensures ids[Src(g, i)[j]] != UNASSIGNED {
      var k :| 0 <= k < |g.nodes| && g.nodes[k] == Src(g, i)[j];
      assert k < i;
    }
  }

  /** What the four passes promise. */
  ghost predicate Assigned(g: OpGraph, e: Backends, pinned: seq<int>, ids: seq<int>) {
    && |pinned| == |ids| == |g.tensors|
    // every computing node that is neither pinned nor an input runs on a backend that supports it
    && (forall i ::
        0 <= i < |g.nodes| ==> ids[g.nodes[i]] != UNASSIGNED && NodeSupported(g, e, pinned, ids, g.nodes[i]))
    // a pinned tensor may only move to a backend of higher priority with the same buffer type
    && (forall t ::
        0 <= t < |ids| && 0 <= pinned[t] < |e.bufts| ==>
        0 <= ids[t] <= pinned[t] && e.bufts[ids[t]] == e.bufts[pinned[t]])
    // every source of a computing node has a backend
    && (forall i :: 0 <= i < |g.nodes| && Computing(g, g.nodes[i]) ==> SourcesAssigned(g, ids, i))
    // a view that nothing else ties down is where the node or input it looks at is
    && (forall i :: 0 <= i < |g.nodes| && FreeView(g, pinned, g.nodes[i]) && RootPlaced(g, pinned, g.nodes[i]) ==>
          ids[g.nodes[i]] == ids[Root(g, g.nodes[i])])
  }

  /** `t` is a view of a node, or of a leaf that is an input or pinned. */
  predicate RootPlaced(g: OpGraph, pinned: seq<int>, t: nat)
    requires t < |g.tensors| == |pinned|
  {
    g.tensors[t].viewSrc.Some? &&
    (Root(g, t) in g.nodes
        || (Root(g, t) in g.leafs && (pinned[Root(g, t)] != UNASSIGNED || g.tensors[Root(g, t)].input)))
  }

  ghost predicate FreeView(g: OpGraph, pinned: seq<int>, t: nat)
    requires t < |g.tensors| == |pinned|
  {
    g.tensors[t].viewOp && pinned[t] == UNASSIGNED && NothingSuggested(g, t)
  }

  /** Passes 1 to 3. */
  ghost predicate ThreePasses(g: OpGraph, e: Backends, pinned: seq<int>, ids: seq<int>) {
    exists s1: seq<int>, s2: seq<int> ::
      && IdsOk(g, e, s1) && FilledFromMemory(g, e, pinned, s1, g.leafs + g.nodes)
      && IdsOk(g, e, s2) && Expanded(g, e, s1, s2)
      && IdsOk(g, e, ids) && Upgraded(g, e, s2, ids, |g.nodes|)
  }

  /** What running all four passes amounts to: the ids, and whether the assertion held. */
  ghost predicate Outcome(g: OpGraph, e: Backends, pinned: seq<int>, ids: seq<int>, ok: bool) {
    exists s3: seq<int> :: ThreePasses(g, e, pinned, s3) && RestOutcome(g, e, s3, ids, ok)
  }

  lemma ThreePassesAssign(g: OpGraph, e: Backends, pinned: seq<int>, s3: seq<int>)
    requires IdsOk(g, e, pinned) && ThreePasses(g, e, pinned, s3)
    ensures IdsOk(g, e, s3)
    ensures forall t :: 0 <= t < |s3| ==> MayBecome(g, e, pinned[t], s3[t], t)
    ensures forall i ::
        0 <= i < |g.nodes| && Computing(g, g.nodes[i]) && s3[g.nodes[i]] == UNASSIGNED ==> !NodeSupportable(g, e, i)
  {
    var s1: seq<int>, s2: seq<int> :|
      && IdsOk(g, e, s1) && FilledFromMemory(g, e, pinned, s1, g.leafs + g.nodes)
      && IdsOk(g, e, s2) && Expanded(g, e, s1, s2)
      && IdsOk(g, e, s3) && Upgraded(g, e, s2, s3, |g.nodes|);
    ExpandedSupports(g, e, s1, s2);
    forall t | 0 <= t < |s3| ensures MayBecome(g, e, pinned[t], s3[t], t) {
      assert FilledAt(g, e, pinned[t], s1[t], t, g.leafs + g.nodes);
      if pinned[t] == UNASSIGNED && t in g.leafs + g.nodes { SuggestionIsSupported(g, e, t, s1[t]); }
      UpgradeLowers(g, e, s2, s3, t);
    }
    forall i | 0 <= i < |g.nodes| && Computing(g, g.nodes[i]) && s3[g.nodes[i]] == UNASSIGNED
      ensures !NodeSupportable(g, e, i)
    {
      UpgradeLeavesNone(g, e, s2, s3, i);
    }
  }

  /** From what passes 1 to 3 and pass 4 leave to what they promise together. */
  lemma RestKeepsPromise(g: OpGraph, e: Backends, pinned: seq<int>, s3: seq<int>, ids: seq<int>)
    requires IdsOk(g, e, pinned) && IdsOk(g, e, s3) && OnlyFills(s3, ids) && RestAssigned(g, s3, ids, |g.nodes|)
    requires forall t :: 0 <= t < |s3| ==> MayBecome(g, e, pinned[t], s3[t], t)
    requires Supportable(g, e)
    requires forall i ::
        0 <= i < |g.nodes| && Computing(g, g.nodes[i]) && s3[g.nodes[i]] == UNASSIGNED ==> !NodeSupportable(g, e, i)
    ensures Assigned(g, e, pinned, ids)
  {
    forall i | 0 <= i < |g.nodes|
      ensures NodeSupported(g, e, pinned, ids, g.nodes[i])
      ensures FreeView(g, pinned, g.nodes[i]) && RootPlaced(g, pinned, g.nodes[i]) ==>
          ids[g.nodes[i]] == ids[Root(g, g.nodes[i])]
    {
      assert MayBecome(g, e, pinned[g.nodes[i]], s3[g.nodes[i]], g.nodes[i]) && NodeSupportable(g, e, i);
      assert MayBecome(g, e, pinned[Root(g, g.nodes[i])], s3[Root(g, g.nodes[i])], Root(g, g.nodes[i]));
    }
    forall t | 0 <= t < |ids| && 0 <= pinned[t] < |e.bufts|
      ensures 0 <= ids[t] <= pinned[t] && e.bufts[ids[t]] == e.bufts[pinned[t]]
    {
      assert MayBecome(g, e, pinned[t], s3[t], t);
    }
  }

  lemma PassesAssign(g: OpGraph, e: Backends, pinned: seq<int>, ids: seq<int>, ok: bool)
    requires Ordered(g) && Supportable(g, e) && IdsOk(g, e, pinned) && Outcome(g, e, pinned, ids, ok)
    ensures ok && Assigned(g, e, pinned, ids)
  {
    var s3: seq<int> :| ThreePasses(g, e, pinned, s3) && RestOutcome(g, e, s3, ids, ok);
    ThreePassesAssign(g, e, pinned, s3);
    RestPromises(g, e, s3, ids, ok);
    RestKeepsPromise(g, e, pinned, s3, ids);
  }

  /** How an id set by the user, or none, can come out of the first three passes. */
  ghost predicate MayBecome(g: OpGraph, e: Backends, pinned: int, id: int, t: nat)
    requires t < |g.tensors|
  {
    if pinned == UNASSIGNED then
      && (id != UNASSIGNED && Computing(g, t) && !g.tensors[t].input ==> 0 <= id && e.supportsOp(id, t))
      && (!Computing(g, t) && NothingSuggested(g, t) ==> id == UNASSIGNED)
      && (t in g.leafs && g.tensors[t].input ==> id != UNASSIGNED)
    else 0 <= id <= pinned < |e.bufts| && e.bufts[id] == e.bufts[pinned]
  }

  predicate Computing(g: OpGraph, t: nat) {
    t < |g.tensors| && !g.tensors[t].viewOp
  }

  /** Neither memory, nor an input flag, nor a weight among the sources says where `t` belongs. */
  predicate NothingSuggested(g: OpGraph, t: nat)
    requires t < |g.tensors|
  {
    && MemoryOf(g, t).None? && !g.tensors[t].input
    && (g.tensors[t].viewSrc.Some? ==> MemoryOf(g, g.tensors[t].viewSrc.value).None?)
    && forall j :: 0 <= j < |g.tensors[t].src| ==> !IsWeight(g, t, j)
  }

  /** Source `j` of `t` is a weight whose place matters; the frequency table of a rope does not. */
  predicate IsWeight(g: OpGraph, t: nat, j: nat)
    requires t < |g.tensors|
  {
    && j < |g.tensors[t].src| && !g.tensors[t].rope
    && g.tensors[g.tensors[t].src[j]].buffer.Some? && g.tensors[g.tensors[t].src[j]].buffer.value.weights
  }

  ghost predicate FirstWeight(g: OpGraph, t: nat, j: nat)
    requires t < |g.tensors|
  {
    IsWeight(g, t, j) && forall k: nat :: k < j ==> !IsWeight(g, t, k)
  }

  /** Backend `b` supports the memory `t` lives in and the operation of `op`. */
  predicate FitsMemory(g: OpGraph, e: Backends, t: nat, op: nat, b: nat)
    requires t < |g.tensors|
  {
    MemoryOf(g, t).Some? && e.supportsBuft(b, MemoryOf(g, t).value.buft) && e.supportsOp(b, op)
  }

  ghost predicate HasFit(g: OpGraph, e: Backends, t: nat, op: nat)
    requires t < |g.tensors|
  {
    exists b: nat :: b < |e.bufts| && FitsMemory(g, e, t, op, b)
  }

  /** `id` is the first backend that fits, or says that there is none. */
  ghost predicate FirstFit(g: OpGraph, e: Backends, t: nat, op: nat, id: int)
    requires t < |g.tensors|
  {
    if HasFit(g, e, t, op) then
      0 <= id < |e.bufts| && FitsMemory(g, e, t, op, id) && forall b: nat :: b < id ==> !FitsMemory(g, e, t, op, b)
    else id == UNASSIGNED
  }

  predicate WillOffload(e: Backends, t: nat, b: nat) {
    e.supportsOp(b, t) && e.offload(b, t)
  }

  /** The operation would follow the weight `src` to the last backend, but one with a higher priority
      offers to take it over. */
  ghost predicate TakenOver(g: OpGraph, e: Backends, t: nat, src: nat)
    requires src < |g.tensors| && g.tensors[src].buffer.Some?
  {
    && e.opOffload && g.tensors[src].buffer.value.host && FirstFit(g, e, src, t, |e.bufts| - 1)
    && exists b: nat :: b < |e.bufts| - 1 && WillOffload(e, t, b)
  }

  ghost predicate FollowsWeight(g: OpGraph, e: Backends, t: nat, src: nat, id: int)
    requires src < |g.tensors| && g.tensors[src].buffer.Some?
  {
    if TakenOver(g, e, t, src) then
      0 <= id < |e.bufts| - 1 && WillOffload(e, t, id) && forall b: nat :: b < id ==> !WillOffload(e, t, b)
    else FirstFit(g, e, src, t, id)
  }

  /** Where `t` belongs: with its own memory, else with that of its root, else, for inputs, on the
      last backend, else with its first weight. */
  ghost predicate Suggested(g: OpGraph, e: Backends, t: nat, id: int)
    requires t < |g.tensors|
  {
    if HasFit(g, e, t, t) then FirstFit(g, e, t, t, id)
    else if HasFit(g, e, Root(g, t), t) then FirstFit(g, e, Root(g, t), t, id)
    else if g.tensors[t].input then id == |e.bufts| - 1
    else if exists j: nat :: IsWeight(g, t, j) then
      exists j: nat :: FirstWeight(g, t, j) && FollowsWeight(g, e, t, g.tensors[t].src[j], id)
    else id == UNASSIGNED
  }

  lemma SuggestionIsUnique(g: OpGraph, e: Backends, t: nat, id: int, id': int)
    requires t < |g.tensors| && Suggested(g, e, t, id) && Suggested(g, e, t, id')
    ensures id == id'
  {
    if !HasFit(g, e, t, t) && !HasFit(g, e, Root(g, t), t) && !g.tensors[t].input {
      if j: nat :| IsWeight(g, t, j) {
        var k: nat :| FirstWeight(g, t, k) && FollowsWeight(g, e, t, g.tensors[t].src[k], id);
        var k': nat :| FirstWeight(g, t, k') && FollowsWeight(g, e, t, g.tensors[t].src[k'], id');
        assert k == k';
      }
    }
  }

  lemma SuggestionIsSupported(g: OpGraph, e: Backends, t: nat, id: int)
    requires t < |g.tensors| && Suggested(g, e, t, id)
    ensures UNASSIGNED <= id < |e.bufts|
    ensures id != UNASSIGNED && !g.tensors[t].input ==> e.supportsOp(id, t)
    ensures NothingSuggested(g, t) ==> id == UNASSIGNED
    ensures g.tensors[t].input ==> id != UNASSIGNED
  {
  }

  /** The listed tensors that had no id got the suggested one; nothing else changed. */
  ghost predicate FilledFromMemory(g: OpGraph, e: Backends, before: seq<int>, after: seq<int>, list: seq<nat>) {
    && |before| == |after| == |g.tensors|
    && forall t :: 0 <= t < |before| ==> FilledAt(g, e, before[t], after[t], t, list)
  }

  ghost predicate FilledAt(g: OpGraph, e: Backends, before: int, after: int, t: nat, list: seq<nat>)
    requires t < |g.tensors|
  {
    if before == UNASSIGNED && t in list then Suggested(g, e, t, after) else after == before
  }

  predicate Located(g: OpGraph, ids: seq<int>, t: nat)
    requires t < |g.tensors| == |ids|
  {
    ids[t] != UNASSIGNED || (g.tensors[t].viewSrc.Some? && ids[Root(g, t)] != UNASSIGNED)
  }

  function CountSupported(g: OpGraph, e: Backends, ids: seq<int>, src: seq<nat>, b: nat): nat
    requires |ids| == |g.tensors| && forall j :: 0 <= j < |src| ==> src[j] < |ids|
  {
    if src == [] then 0
    else
      var last := src[|src| - 1];
      CountSupported(g, e, ids, src[..|src| - 1], b)
      + if Located(g, ids, last) && BufferSupported(g, e, ids, last, b) then 1 else 0
  }

  ghost predicate BestAmong(g: OpGraph, e: Backends, ids: seq<int>, t: nat, n: nat, best: nat)
    requires t < |g.tensors| == |ids|
  {
    && best < n && e.supportsOp(best, t)
    && forall b: nat :: b < n && b != best && e.supportsOp(b, t) ==>
         if b < best then
             CountSupported(g, e, ids, g.tensors[t].src, b) < CountSupported(g, e, ids, g.tensors[t].src, best)
         else CountSupported(g, e, ids, g.tensors[t].src, b) <= CountSupported(g, e, ids, g.tensors[t].src, best)
  }

  predicate CanMoveTo(g: OpGraph, e: Backends, ids: seq<int>, t: nat, b: nat)
    requires t < |g.tensors| == |ids| && 0 <= ids[t] < |e.bufts|
  {
    && b < |e.bufts| && e.bufts[b] == e.bufts[ids[t]] && e.supportsOp(b, t)
    && forall j :: 0 <= j < |g.tensors[t].src| ==> BufferSupported(g, e, ids, g.tensors[t].src[j], b)
  }

  /** `target` is the first backend that `t` can move to, or where it is if there is none before. */
  ghost predicate FirstMove(g: OpGraph, e: Backends, ids: seq<int>, t: nat, target: nat)
    requires t < |g.tensors| == |ids| && 0 <= ids[t] < |e.bufts|
  {
    && target <= ids[t] && (target < ids[t] ==> CanMoveTo(g, e, ids, t, target))
    && forall b: nat :: b < target ==> !CanMoveTo(g, e, ids, t, b)
  }

  ghost predicate NoneSupports(e: Backends, t: nat) {
    forall b: nat :: b < |e.bufts| ==> !e.supportsOp(b, t)
  }

  /** The ids when pass 3 comes to node `i`: final before it, untouched from it on. */
  function Midway(g: OpGraph, before: seq<int>, after: seq<int>, i: nat): (r: seq<int>)
    requires |before| == |after| == |g.tensors| && i <= |g.nodes|
    ensures |r| == |before|
  {
    seq(|before|, t requires 0 <= t < |before| => if t in g.nodes[..i] then after[t] else before[t])
  }

  /** Node `i` got what pass 3 decides with the ids of that moment. */
  ghost predicate Decided(g: OpGraph, e: Backends, before: seq<int>, after: seq<int>, i: nat)
    requires |before| == |after| == |g.tensors| && i < |g.nodes|
  {
    var t, mid := g.nodes[i], Midway(g, before, after, i);
    if g.tensors[t].viewOp then after[t] == mid[t]
    else if mid[t] == UNASSIGNED then
      if after[t] == UNASSIGNED then NoneSupports(e, t)
      else 0 <= after[t] && BestAmong(g, e, mid, t, |e.bufts|, after[t])
    else 0 <= mid[t] < |e.bufts| && 0 <= after[t] && FirstMove(g, e, mid, t, after[t])
  }

  /** Pass 3 has been through the first `n` nodes. */
  ghost predicate Upgraded(g: OpGraph, e: Backends, before: seq<int>, after: seq<int>, n: nat) {
    && |before| == |after| == |g.tensors| && n <= |g.nodes| && Distinct(g)
    && (forall t :: 0 <= t < |after| && t !in g.nodes[..n] ==> after[t] == before[t])
    && (forall i :: 0 <= i < n ==> Decided(g, e, before, after, i))
  }

  lemma UpgradeStep(g: OpGraph, e: Backends, before: seq<int>, now: seq<int>, next: seq<int>, i: nat)
    requires i < |g.nodes| && Upgraded(g, e, before, now, i) && |next| == |now| && IdsOk(g, e, now)
    requires forall t :: 0 <= t < |now| && t != g.nodes[i] ==> next[t] == now[t]
    requires var t := g.nodes[i];
             if g.tensors[t].viewOp then next[t] == now[t]
             else if now[t] == UNASSIGNED then
               if next[t] == UNASSIGNED then NoneSupports(e, t)
               else 0 <= next[t] && BestAmong(g, e, now, t, |e.bufts|, next[t])
             else 0 <= next[t] && FirstMove(g, e, now, t, next[t])
    ensures Upgraded(g, e, before, next, i + 1)
  {
    assert g.nodes[..i + 1] == g.nodes[..i] + [g.nodes[i]];
    assert Midway(g, before, next, i) == now;
    forall k | 0 <= k < i ensures Decided(g, e, before, next, k) {
      assert Midway(g, before, next, k) == Midway(g, before, now, k);
      assert Decided(g, e, before, now, k);
    }
  }

  /** Pass 3 only lowers an assigned id, keeping its buffer type, or fills one in, in both cases with
      a backend that supports the operation. */
  lemma UpgradeLowers(g: OpGraph, e: Backends, before: seq<int>, after: seq<int>, t: nat)
    requires IdsOk(g, e, before) && Upgraded(g, e, before, after, |g.nodes|) && t < |before|
    ensures after[t] != before[t] ==> Computing(g, t) && 0 <= after[t] < |e.bufts| && e.supportsOp(after[t], t)
    ensures before[t] != UNASSIGNED ==> 0 <= after[t] <= before[t] && e.bufts[after[t]] == e.bufts[before[t]]
  {
    if t in g.nodes[..|g.nodes|] {
      var i :| 0 <= i < |g.nodes| && g.nodes[i] == t;
      assert Decided(g, e, before, after, i);
      assert t !in g.nodes[..i];
    }
  }

  lemma UpgradeLeavesNone(g: OpGraph, e: Backends, before: seq<int>, after: seq<int>, i: nat)
    requires Upgraded(g, e, before, after, |g.nodes|) && i < |g.nodes|
    ensures Computing(g, g.nodes[i]) && after[g.nodes[i]] == UNASSIGNED ==> NoneSupports(e, g.nodes[i])
  {
    assert Decided(g, e, before, after, i);
  }

  ghost predicate Distinct(g: OpGraph) {
    forall i, k :: 0 <= i < k < |g.nodes| ==> g.nodes[i] != g.nodes[k]
  }

  /** The id carried into node `i` from the nodes above it. */
  function Above(g: OpGraph, e: Backends, ids: seq<int>, i: nat, skipCpu: bool): int
    requires i <= |g.nodes| && |ids| == |g.tensors|
  {
    if i == 0 then UNASSIGNED
    else Carry(g, e, ids, g.nodes[i - 1], Above(g, e, ids, i - 1, skipCpu), skipCpu)
  }

  /** The id carried into node `i` from the nodes below it. */
  function Below(g: OpGraph, e: Backends, ids: seq<int>, i: nat, skipCpu: bool): int
    requires |ids| == |g.tensors|
    decreases |g.nodes| - i
  {
    if i + 1 >= |g.nodes| then UNASSIGNED
    else Carry(g, e, ids, g.nodes[i + 1], Below(g, e, ids, i + 1, skipCpu), skipCpu)
  }

  function Carry(g: OpGraph, e: Backends, ids: seq<int>, t: nat, carried: int, skipCpu: bool): int
    requires t < |g.tensors| == |ids|
  {
    if g.tensors[t].viewOp || ids[t] == UNASSIGNED then carried
    else if skipCpu && ids[t] == |e.bufts| - 1 then UNASSIGNED
    else ids[t]
  }

  /** The id of `t` after it was offered `carried`: taken by a computing tensor that has none, if the
      backend supports its operation. */
  function Offered(g: OpGraph, e: Backends, ids: seq<int>, t: nat, carried: int): int
    requires t < |g.tensors| == |ids|
  {
    if !g.tensors[t].viewOp && ids[t] == UNASSIGNED && 0 <= carried && e.supportsOp(carried, t) then carried else ids[t]
  }

  lemma {:induction false} AboveInRange(g: OpGraph, e: Backends, ids: seq<int>, i: nat, skipCpu: bool)
    requires i <= |g.nodes| && IdsOk(g, e, ids)
    ensures UNASSIGNED <= Above(g, e, ids, i, skipCpu) < |e.bufts|
    ensures skipCpu ==> Above(g, e, ids, i, skipCpu) != |e.bufts| - 1
  {
    if i > 0 { AboveInRange(g, e, ids, i - 1, skipCpu); }
  }

  lemma {:induction false} BelowInRange(g: OpGraph, e: Backends, ids: seq<int>, i: nat, skipCpu: bool)
    requires IdsOk(g, e, ids)
    ensures UNASSIGNED <= Below(g, e, ids, i, skipCpu) < |e.bufts|
    ensures skipCpu ==> Below(g, e, ids, i, skipCpu) != |e.bufts| - 1
    decreases |g.nodes| - i
  {
    if i + 1 < |g.nodes| { BelowInRange(g, e, ids, i + 1, skipCpu); }
  }

  lemma {:induction false} AboveDependsOnNodesAbove(g: OpGraph, e: Backends, ids: seq<int>, ids': seq<int>, i: nat,
                                                    skipCpu: bool)
    requires i <= |g.nodes| && |ids| == |ids'| == |g.tensors|
    requires forall k :: 0 <= k < i ==> ids'[g.nodes[k]] == ids[g.nodes[k]]
    ensures Above(g, e, ids', i, skipCpu) == Above(g, e, ids, i, skipCpu)
  {
    if i > 0 { AboveDependsOnNodesAbove(g, e, ids, ids', i - 1, skipCpu); }
  }

  lemma {:induction false} BelowDependsOnNodesBelow(g: OpGraph, e: Backends, ids: seq<int>, ids': seq<int>, i: nat,
                                                    skipCpu: bool)
    requires |ids| == |ids'| == |g.tensors|
    requires forall k :: i < k < |g.nodes| ==> ids'[g.nodes[k]] == ids[g.nodes[k]]
    ensures Below(g, e, ids', i, skipCpu) == Below(g, e, ids, i, skipCpu)
    decreases |g.nodes| - i
  {
    if i + 1 < |g.nodes| { BelowDependsOnNodesBelow(g, e, ids, ids', i + 1, skipCpu); }
  }

  ghost predicate TookFromAbove(g: OpGraph, e: Backends, before: seq<int>, after: seq<int>, k: nat, skipCpu: bool)
    requires k < |g.nodes| && |before| == |after| == |g.tensors|
  {
    after[g.nodes[k]] == Offered(g, e, before, g.nodes[k], Above(g, e, after, k, skipCpu))
  }

  ghost predicate TookFromBelow(g: OpGraph, e: Backends, before: seq<int>, after: seq<int>, k: nat, skipCpu: bool)
    requires k < |g.nodes| && |before| == |after| == |g.tensors|
  {
    after[g.nodes[k]] == Offered(g, e, before, g.nodes[k], Below(g, e, after, k, skipCpu))
  }

  /** The first `i` nodes took what was carried to them from above, judged by the final ids; nothing
      else changed. */
  ghost predicate SweptDown(g: OpGraph, e: Backends, before: seq<int>, after: seq<int>, i: nat, skipCpu: bool) {
    && i <= |g.nodes| && |before| == |g.tensors| && IdsOk(g, e, after) && OnlyFills(before, after)
    && (forall t :: 0 <= t < |after| && t !in g.nodes[..i] ==> after[t] == before[t])
    && (forall k :: 0 <= k < i ==> TookFromAbove(g, e, before, after, k, skipCpu))
  }

  ghost predicate SweptUp(g: OpGraph, e: Backends, before: seq<int>, after: seq<int>, i: nat, skipCpu: bool) {
    && i <= |g.nodes| && |before| == |g.tensors| && IdsOk(g, e, after) && OnlyFills(before, after)
    && (forall t :: 0 <= t < |after| && t !in g.nodes[i..] ==> after[t] == before[t])
    && (forall k :: i <= k < |g.nodes| ==> TookFromBelow(g, e, before, after, k, skipCpu))
  }

  lemma DownStep(g: OpGraph, e: Backends, before: seq<int>, now: seq<int>, i: nat, skipCpu: bool)
    requires Distinct(g) && i < |g.nodes| && SweptDown(g, e, before, now, i, skipCpu)
    ensures var t := g.nodes[i];
            var next := now[t := Offered(g, e, now, t, Above(g, e, now, i, skipCpu))];
            SweptDown(g, e, before, next, i + 1, skipCpu)
            && Above(g, e, next, i + 1, skipCpu) == Carry(g, e, next, t, Above(g, e, now, i, skipCpu), skipCpu)
  {
    var t := g.nodes[i];
    AboveInRange(g, e, now, i, skipCpu);
    var next := now[t := Offered(g, e, now, t, Above(g, e, now, i, skipCpu))];
    assert t !in g.nodes[..i] && g.nodes[..i + 1] == g.nodes[..i] + [t];
    forall k | 0 <= k <= i ensures TookFromAbove(g, e, before, next, k, skipCpu) {
      AboveDependsOnNodesAbove(g, e, now, next, k, skipCpu);
      if k < i { assert TookFromAbove(g, e, before, now, k, skipCpu); }
    }
    AboveDependsOnNodesAbove(g, e, now, next, i, skipCpu);
  }

  lemma UpStep(g: OpGraph, e: Backends, before: seq<int>, now: seq<int>, i: nat, skipCpu: bool)
    requires Distinct(g) && i < |g.nodes| && SweptUp(g, e, before, now, i + 1, skipCpu)
    ensures var t := g.nodes[i];
            var next := now[t := Offered(g, e, now, t, Below(g, e, now, i, skipCpu))];
            SweptUp(g, e, before, next, i, skipCpu)
            && (i > 0 ==>
                Below(g, e, next, i - 1, skipCpu) == Carry(g, e, next, t, Below(g, e, now, i, skipCpu), skipCpu))
  {
    var t := g.nodes[i];
    BelowInRange(g, e, now, i, skipCpu);
    var next := now[t := Offered(g, e, now, t, Below(g, e, now, i, skipCpu))];
    assert t !in g.nodes[i + 1..] && g.nodes[i..] == [t] + g.nodes[i + 1..];
    forall k | i <= k < |g.nodes| ensures TookFromBelow(g, e, before, next, k, skipCpu) {
      BelowDependsOnNodesBelow(g, e, now, next, k, skipCpu);
      if k > i { assert TookFromBelow(g, e, before, now, k, skipCpu); }
    }
    BelowDependsOnNodesBelow(g, e, now, next, i, skipCpu);
  }

  lemma SweptDownSupports(g: OpGraph, e: Backends, before: seq<int>, after: seq<int>, skipCpu: bool)
    requires SweptDown(g, e, before, after, |g.nodes|, skipCpu)
    ensures forall t :: 0 <= t < |after| && before[t] != after[t] ==> Computing(g, t) && e.supportsOp(after[t], t)
  {
    forall t | 0 <= t < |after| && before[t] != after[t] ensures Computing(g, t) && e.supportsOp(after[t], t) {
      var k :| 0 <= k < |g.nodes| && g.nodes[k] == t;
      assert TookFromAbove(g, e, before, after, k, skipCpu);
    }
  }

  lemma SweptUpSupports(g: OpGraph, e: Backends, before: seq<int>, after: seq<int>, skipCpu: bool)
    requires SweptUp(g, e, before, after, 0, skipCpu)
    ensures forall t :: 0 <= t < |after| && before[t] != after[t] ==> Computing(g, t) && e.supportsOp(after[t], t)
  {
    forall t | 0 <= t < |after| && before[t] != after[t] ensures Computing(g, t) && e.supportsOp(after[t], t) {
      var k :| 0 <= k < |g.nodes| && g.nodes[k] == t;
      assert TookFromBelow(g, e, before, after, k, skipCpu);
    }
  }

  /** A computing node that pass 2 leaves without an id is not supported by the backend of the closest
      assigned node below it. */
  ghost predicate SweptFully(g: OpGraph, e: Backends, ids: seq<int>) {
    |ids| == |g.tensors| && forall k :: 0 <= k < |g.nodes| ==> NotOfferedFromBelow(g, e, ids, k)
  }

  ghost predicate NotOfferedFromBelow(g: OpGraph, e: Backends, ids: seq<int>, k: nat)
    requires k < |g.nodes| && |ids| == |g.tensors|
  {
    Computing(g, g.nodes[k]) && ids[g.nodes[k]] == UNASSIGNED && 0 <= Below(g, e, ids, k, false) ==>
      !e.supportsOp(Below(g, e, ids, k, false), g.nodes[k])
  }

  lemma SweptUpLeaves(g: OpGraph, e: Backends, before: seq<int>, after: seq<int>)
    requires SweptUp(g, e, before, after, 0, false)
    ensures SweptFully(g, e, after)
  {
    forall k | 0 <= k < |g.nodes| ensures NotOfferedFromBelow(g, e, after, k) {
      assert TookFromBelow(g, e, before, after, k, false);
    }
  }

  /** The four sweeps of pass 2. */
  ghost predicate Expanded(g: OpGraph, e: Backends, before: seq<int>, after: seq<int>) {
    exists s1: seq<int>, s2: seq<int>, s3: seq<int> ::
      && SweptDown(g, e, before, s1, |g.nodes|, true) && SweptUp(g, e, s1, s2, 0, true)
      && SweptDown(g, e, s2, s3, |g.nodes|, false) && SweptUp(g, e, s3, after, 0, false)
  }

  /** Pass 2 only fills in computing nodes, with backends that support them. */
  lemma ExpandedSupports(g: OpGraph, e: Backends, before: seq<int>, after: seq<int>)
    requires Expanded(g, e, before, after)
    ensures OnlyFills(before, after) && SweptFully(g, e, after)
    ensures forall t :: 0 <= t < |after| && before[t] != after[t] ==> Computing(g, t) && e.supportsOp(after[t], t)
  {
    var s1: seq<int>, s2: seq<int>, s3: seq<int> :|
      && SweptDown(g, e, before, s1, |g.nodes|, true) && SweptUp(g, e, s1, s2, 0, true)
      && SweptDown(g, e, s2, s3, |g.nodes|, false) && SweptUp(g, e, s3, after, 0, false);
    SweptDownSupports(g, e, before, s1, true);
    SweptUpSupports(g, e, s1, s2, true);
    SweptDownSupports(g, e, s2, s3, false);
    SweptUpSupports(g, e, s3, after, false);
    SweptUpLeaves(g, e, s3, after);
  }
}
