/** What the passes of the scheduler say about their result leaves no choice: the ids set by the user,
    the graph and the backends determine every assigned backend. */
module SchedPasses {
  import opened SchedGraphs
  import opened SchedAssign

  lemma FilledIsUnique(g: OpGraph, e: Backends, before: seq<int>, after: seq<int>, after': seq<int>, list: seq<nat>)
    requires FilledFromMemory(g, e, before, after, list) && FilledFromMemory(g, e, before, after', list)
    ensures after == after'
  {
    forall t | 0 <= t < |before| ensures after[t] == after'[t] {
      assert FilledAt(g, e, before[t], after[t], t, list) && FilledAt(g, e, before[t], after'[t], t, list);
      if before[t] == UNASSIGNED && t in list { SuggestionIsUnique(g, e, t, after[t], after'[t]); }
    }
  }

  lemma {:induction false} SweptDownAgrees(g: OpGraph, e: Backends, before: seq<int>, after: seq<int>,
                                           after': seq<int>, n: nat, skipCpu: bool)
    requires SweptDown(g, e, before, after, |g.nodes|, skipCpu) && SweptDown(g, e, before, after', |g.nodes|, skipCpu)
    requires n <= |g.nodes|
    ensures forall k :: 0 <= k < n ==> after'[g.nodes[k]] == after[g.nodes[k]]
  {
    if n > 0 {
      SweptDownAgrees(g, e, before, after, after', n - 1, skipCpu);
      AboveDependsOnNodesAbove(g, e, after, after', n - 1, skipCpu);
      assert TookFromAbove(g, e, before, after, n - 1, skipCpu) && TookFromAbove(g, e, before, after', n - 1, skipCpu);
    }
  }

  lemma SweptDownIsUnique(g: OpGraph, e: Backends, before: seq<int>, after: seq<int>, after': seq<int>, skipCpu: bool)
    requires SweptDown(g, e, before, after, |g.nodes|, skipCpu) && SweptDown(g, e, before, after', |g.nodes|, skipCpu)
    ensures after == after'
  {
    SweptDownAgrees(g, e, before, after, after', |g.nodes|, skipCpu);
    forall t | 0 <= t < |after| ensures after[t] == after'[t] {
      if t in g.nodes[..|g.nodes|] {
        var k :| 0 <= k < |g.nodes| && g.nodes[k] == t;
      }
    }
  }

  lemma {:induction false} SweptUpAgrees(g: OpGraph, e: Backends, before: seq<int>, after: seq<int>, after': seq<int>,
                                         i: nat, skipCpu: bool)
    requires SweptUp(g, e, before, after, 0, skipCpu) && SweptUp(g, e, before, after', 0, skipCpu)
    requires i <= |g.nodes|
    ensures forall k :: i <= k < |g.nodes| ==> after'[g.nodes[k]] == after[g.nodes[k]]
    decreases |g.nodes| - i
  {
    if i < |g.nodes| {
      SweptUpAgrees(g, e, before, after, after', i + 1, skipCpu);
      BelowDependsOnNodesBelow(g, e, after, after', i, skipCpu);
      assert TookFromBelow(g, e, before, after, i, skipCpu) && TookFromBelow(g, e, before, after', i, skipCpu);
    }
  }

  lemma SweptUpIsUnique(g: OpGraph, e: Backends, before: seq<int>, after: seq<int>, after': seq<int>, skipCpu: bool)
    requires SweptUp(g, e, before, after, 0, skipCpu) && SweptUp(g, e, before, after', 0, skipCpu)
    ensures after == after'
  {
    SweptUpAgrees(g, e, before, after, after', 0, skipCpu);
    forall t | 0 <= t < |after| ensures after[t] == after'[t] {
      if t in g.nodes[0..] {
        var k :| 0 <= k < |g.nodes| && g.nodes[k] == t;
      }
    }
  }

  lemma ExpandedIsUnique(g: OpGraph, e: Backends, before: seq<int>, after: seq<int>, after': seq<int>)
    requires Expanded(g, e, before, after) && Expanded(g, e, before, after')
    ensures after == after'
  {
    var s1: seq<int>, s2: seq<int>, s3: seq<int> :|
      && SweptDown(g, e, before, s1, |g.nodes|, true) && SweptUp(g, e, s1, s2, 0, true)
      && SweptDown(g, e, s2, s3, |g.nodes|, false) && SweptUp(g, e, s3, after, 0, false);
    var r1: seq<int>, r2: seq<int>, r3: seq<int> :|
      && SweptDown(g, e, before, r1, |g.nodes|, true) && SweptUp(g, e, r1, r2, 0, true)
      && SweptDown(g, e, r2, r3, |g.nodes|, false) && SweptUp(g, e, r3, after', 0, false);
    SweptDownIsUnique(g, e, before, s1, r1, true);
    SweptUpIsUnique(g, e, s1, s2, r2, true);
    SweptDownIsUnique(g, e, s2, s3, r3, false);
    SweptUpIsUnique(g, e, s3, after, after', false);
  }

  lemma BestIsUnique(g: OpGraph, e: Backends, ids: seq<int>, t: nat, best: nat, best': nat)
    requires t < |g.tensors| == |ids|
    requires BestAmong(g, e, ids, t, |e.bufts|, best) && BestAmong(g, e, ids, t, |e.bufts|, best')
    ensures best == best'
  {
  }

  /** At every node pass 3 has a single choice, given those it made before. */
  lemma {:induction false} UpgradedAgrees(g: OpGraph, e: Backends, before: seq<int>, after: seq<int>,
                                          after': seq<int>, n: nat)
    requires Upgraded(g, e, before, after, |g.nodes|) && Upgraded(g, e, before, after', |g.nodes|)
    requires n <= |g.nodes| && IdsOk(g, e, after) && IdsOk(g, e, after')
    ensures Midway(g, before, after, n) == Midway(g, before, after', n)
  {
    if n > 0 {
      UpgradedAgrees(g, e, before, after, after', n - 1);
      var t, mid := g.nodes[n - 1], Midway(g, before, after, n - 1);
      assert Decided(g, e, before, after, n - 1) && Decided(g, e, before, after', n - 1);
      if !g.tensors[t].viewOp && mid[t] == UNASSIGNED && after[t] != UNASSIGNED && after'[t] != UNASSIGNED {
        BestIsUnique(g, e, mid, t, after[t], after'[t]);
      }
      assert after[t] == after'[t];
      assert g.nodes[..n] == g.nodes[..n - 1] + [t];
      forall x | 0 <= x < |before| ensures Midway(g, before, after, n)[x] == Midway(g, before, after', n)[x] {
        assert Midway(g, before, after, n - 1)[x] == Midway(g, before, after', n - 1)[x];
      }
    }
  }

  lemma UpgradedIsUnique(g: OpGraph, e: Backends, before: seq<int>, after: seq<int>, after': seq<int>)
    requires Upgraded(g, e, before, after, |g.nodes|) && Upgraded(g, e, before, after', |g.nodes|)
    requires IdsOk(g, e, after) && IdsOk(g, e, after')
    ensures after == after'
  {
    UpgradedAgrees(g, e, before, after, after', |g.nodes|);
    forall t | 0 <= t < |after| ensures after[t] == after'[t] {
      assert Midway(g, before, after, |g.nodes|)[t] == Midway(g, before, after', |g.nodes|)[t];
    }
  }

  lemma ThreePassesAreUnique(g: OpGraph, e: Backends, pinned: seq<int>, ids: seq<int>, ids': seq<int>)
    requires ThreePasses(g, e, pinned, ids) && ThreePasses(g, e, pinned, ids')
    ensures ids == ids'
  {
    var s1: seq<int>, s2: seq<int> :|
      && IdsOk(g, e, s1) && FilledFromMemory(g, e, pinned, s1, g.leafs + g.nodes)
      && IdsOk(g, e, s2) && Expanded(g, e, s1, s2)
      && IdsOk(g, e, ids) && Upgraded(g, e, s2, ids, |g.nodes|);
    var r1: seq<int>, r2: seq<int> :|
      && IdsOk(g, e, r1) && FilledFromMemory(g, e, pinned, r1, g.leafs + g.nodes)
      && IdsOk(g, e, r2) && Expanded(g, e, r1, r2)
      && IdsOk(g, e, ids') && Upgraded(g, e, r2, ids', |g.nodes|);
    FilledIsUnique(g, e, pinned, s1, r1, g.leafs + g.nodes);
    ExpandedIsUnique(g, e, s1, s2, r2);
    UpgradedIsUnique(g, e, s2, ids, ids');
  }

  lemma {:induction false} RunsAgree(g: OpGraph, e: Backends, before: seq<int>, trace: seq<seq<int>>,
                                     trace': seq<seq<int>>, n: nat)
    requires RestRun(g, e, before, trace) && RestRun(g, e, before, trace') && n < |trace| && n < |trace'|
    ensures trace'[n] == trace[n]
  {
    if n > 0 {
      RunsAgree(g, e, before, trace, trace', n - 1);
      assert StepAt(g, e, trace, n - 1) && StepAt(g, e, trace', n - 1);
    }
  }

  /** A run that stops cannot be followed further. */
  lemma StoppedIsNotLonger(g: OpGraph, e: Backends, before: seq<int>, trace: seq<seq<int>>, trace': seq<seq<int>>,
                           ok: bool, ok': bool)
    requires RestEnds(g, e, before, trace, ok) && RestEnds(g, e, before, trace', ok')
    ensures |trace| >= |trace'| && (|trace| == |trace'| && ok' ==> ok)
  {
    if !ok && |trace| <= |trace'| {
      var k := |trace| - 2;
      RunsAgree(g, e, before, trace, trace', k + 1);
      assert AssignedAt(g, trace', k) <==> AssignedAt(g, trace, k);
    }
  }

  lemma RestIsUnique(g: OpGraph, e: Backends, before: seq<int>, ids: seq<int>, ids': seq<int>, ok: bool, ok': bool)
    requires RestOutcome(g, e, before, ids, ok) && RestOutcome(g, e, before, ids', ok')
    ensures ok == ok' && ids == ids'
  {
    var trace: seq<seq<int>> :| RestEnds(g, e, before, trace, ok) && ids == trace[|trace| - 1];
    var trace': seq<seq<int>> :| RestEnds(g, e, before, trace', ok') && ids' == trace'[|trace'| - 1];
    StoppedIsNotLonger(g, e, before, trace, trace', ok, ok');
    StoppedIsNotLonger(g, e, before, trace', trace, ok', ok);
    RunsAgree(g, e, before, trace, trace', |trace| - 1);
  }

  /** Two runs from the same ids end with the same ids, and both or neither stop at the assertion. */
  lemma AssignmentIsDetermined(g: OpGraph, e: Backends, pinned: seq<int>, ids: seq<int>, ids': seq<int>, ok: bool,
                               ok': bool)
    requires Outcome(g, e, pinned, ids, ok) && Outcome(g, e, pinned, ids', ok')
    ensures ok == ok' && ids == ids'
  {
    var s3: seq<int> :| ThreePasses(g, e, pinned, s3) && RestOutcome(g, e, s3, ids, ok);
    var r3: seq<int> :| ThreePasses(g, e, pinned, r3) && RestOutcome(g, e, r3, ids', ok');
    ThreePassesAreUnique(g, e, pinned, s3, r3);
    RestIsUnique(g, e, s3, ids, ids', ok, ok');
  }
}
