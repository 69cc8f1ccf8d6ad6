/** The scheduler from the user's settings to the result: when the assigned and split graph computes what
    the graph does, and settings with which it does not. */
module SchedSettings {
  import opened Wrappers
  import opened SchedGraphs
  import opened SchedAssign
  import opened SchedSplit
  import opened SchedMeaning

  /** A view whose contents are not in memory assigned beforehand is left to the scheduler: it is a node
      that nothing ties down, and its root is computed, or an input or pinned. */
  predicate LeftToScheduler(g: OpGraph, pinned: seq<int>, t: nat)
    requires t < |g.tensors| == |pinned|
  {
    g.tensors[t].viewSrc.Some? && MemoryOf(g, t).None? ==>
      t in g.nodes && g.tensors[t].viewOp && pinned[t] == UNASSIGNED && NothingSuggested(g, t)
          && RootPlaced(g, pinned, t)
  }

  /** A tensor in memory assigned beforehand is not computed and not pinned, and some backend both
      reads that memory and supports the tensor's operation. */
  ghost predicate MemoryUsable(g: OpGraph, e: Backends, pinned: seq<int>, t: nat)
    requires t < |g.tensors| == |pinned|
  {
    MemoryOf(g, t).Some? ==>
      t in g.leafs + g.nodes && (t in g.nodes ==> g.tensors[t].viewOp) && pinned[t] == UNASSIGNED && HasFit(g, e, t, t)
  }

  /** Tensors that are no computing nodes keep what pass 1 gave them. */
  lemma SettledInPassOne(g: OpGraph, e: Backends, s1: seq<int>, s2: seq<int>, s3: seq<int>, t: nat)
    requires IdsOk(g, e, s1) && IdsOk(g, e, s2) && Expanded(g, e, s1, s2) && Upgraded(g, e, s2, s3, |g.nodes|)
    requires t < |g.tensors| && (t in g.nodes ==> g.tensors[t].viewOp)
    ensures s3[t] == s1[t]
  {
    if t in g.nodes {
      ExpandedSupports(g, e, s1, s2);
      UpgradeLowers(g, e, s2, s3, t);
    } else {
      ExpandedKeepsOthers(g, e, s1, s2, t);
    }
  }

  lemma ExpandedKeepsOthers(g: OpGraph, e: Backends, before: seq<int>, after: seq<int>, t: nat)
    requires Expanded(g, e, before, after) && t < |g.tensors| && t !in g.nodes
    ensures |after| == |before| == |g.tensors| && after[t] == before[t]
  {
    var s1: seq<int>, s2: seq<int>, s3: seq<int> :|
      && SweptDown(g, e, before, s1, |g.nodes|, true) && SweptUp(g, e, s1, s2, 0, true)
      && SweptDown(g, e, s2, s3, |g.nodes|, false) && SweptUp(g, e, s3, after, 0, false);
  }

  /** Memory assigned beforehand stays accessible to the backend of the tensor that lives in it. */
  lemma MemoryStaysAtHome(g: OpGraph, e: Backends, pinned: seq<int>, ids: seq<int>, ok: bool, t: nat)
    requires Ordered(g) && Supportable(g, e) && IdsOk(g, e, pinned) && Outcome(g, e, pinned, ids, ok)
    requires t < |g.tensors| && MemoryUsable(g, e, pinned, t)
    ensures t < |ids| && |ids| == |g.tensors| && MemoryAtHome(g, e, ids, t)
  {
    var s3: seq<int> :| ThreePasses(g, e, pinned, s3) && RestOutcome(g, e, s3, ids, ok);
    RestPromises(g, e, s3, ids, ok);
    if MemoryOf(g, t).Some? {
      var s1: seq<int>, s2: seq<int> :|
        && IdsOk(g, e, s1) && FilledFromMemory(g, e, pinned, s1, g.leafs + g.nodes)
        && IdsOk(g, e, s2) && Expanded(g, e, s1, s2)
        && IdsOk(g, e, s3) && Upgraded(g, e, s2, s3, |g.nodes|);
      assert FilledAt(g, e, pinned[t], s1[t], t, g.leafs + g.nodes);
      SettledInPassOne(g, e, s1, s2, s3, t);
      assert FitsMemory(g, e, t, t, s1[t]);
    }
  }

  /** From the user's settings to the result: if views are left to the scheduler and memory assigned
      beforehand is usable, the assigned and split graph computes what the graph does. */
  lemma UnpinnedViewsPreserveMeaning(g: OpGraph, e: Backends, pinned: seq<int>, ids: seq<int>, ok: bool, r: SplitPlan,
                                     m: Meaning, init: seq<int>)
    requires SingleAssignment(g) && Supportable(g, e) && IdsOk(g, e, pinned) && Outcome(g, e, pinned, ids, ok)
    requires IdsOk(g, e, ids) && WellSplit(g, e, ids, r) && |init| == |g.tensors|
    requires forall t :: 0 <= t < |g.tensors| ==> LeftToScheduler(g, pinned, t) && MemoryUsable(g, e, pinned, t)
    ensures Runnable(g, r) && RunSplits(g, e, ids, m, r, init, |r.splits|).values == Run(g, m, init, |g.nodes|)
  {
    PassesAssign(g, e, pinned, ids, ok);
    forall t | 0 <= t < |g.tensors| ensures MemoryAtHome(g, e, ids, t) {
      MemoryStaysAtHome(g, e, pinned, ids, ok, t);
    }
    forall i, j | 0 <= i < |g.nodes| && Computing(g, g.nodes[i]) && 0 <= j < |Src(g, i)|
      ensures SourceAtHome(g, e, ids, Src(g, i)[j])
    {
      SourceIsAtHome(g, e, pinned, ids, i, j);
    }
    ViewsAtHomeAreRight(g, e, ids, r);
    SplittingPreservesMeaning(g, e, ids, r);
    assert SameResult(g, e, ids, r, m, init);
  }

  lemma SourceIsAtHome(g: OpGraph, e: Backends, pinned: seq<int>, ids: seq<int>, i: nat, j: nat)
    requires Assigned(g, e, pinned, ids) && IdsOk(g, e, ids) && i < |g.nodes| && Computing(g, g.nodes[i])
    requires j < |Src(g, i)|
    requires HasIds(g, ids, i) && MemoryAtHome(g, e, ids, Src(g, i)[j]) && LeftToScheduler(g, pinned, Src(g, i)[j])
    ensures SourceAtHome(g, e, ids, Src(g, i)[j])
  {
    var t := Src(g, i)[j];
    if g.tensors[t].viewSrc.Some? && MemoryOf(g, t).None? {
      var n :| 0 <= n < |g.nodes| && g.nodes[n] == t;
      assert FreeView(g, pinned, g.nodes[n]) && RootPlaced(g, pinned, g.nodes[n]);
    }
  }
}
