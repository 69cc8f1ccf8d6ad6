/** Two settings with which the scheduler changes what a graph computes: a view is pinned to another
    backend than the tensor it looks at. */
module SchedPinned {
  import opened Wrappers
  import opened SchedGraphs
  import opened SchedAssign
  import opened SchedSplit
  import opened SchedMeaning

  /** A tensor without memory, input flag or weights. */
  predicate Plain(x: OpTensor, src: seq<nat>, viewSrc: Option<nat>) {
    && x.src == src && x.viewSrc == viewSrc && (x.viewOp <==> viewSrc.Some?)
    && !x.rope && !x.input && x.buffer == None
  }

  /** 1 is computed from the leaf 0; 2 is a view of 1; 3 is computed from 2. */
  predicate Line(g: OpGraph) {
    && |g.tensors| == 4 && g.nodes == [1, 2, 3] && g.leafs == [0]
    && Plain(g.tensors[0], [], None) && Plain(g.tensors[1], [0], None)
    && Plain(g.tensors[2], [1], Some(1)) && Plain(g.tensors[3], [2], None)
  }

  lemma LineExists() returns (g: OpGraph)
    ensures Line(g)
  {
    g := RawOpGraph(
      [ OpTensor([], None, false, false, false, None), OpTensor([0], None, false, false, false, None),
        OpTensor([1], Some(1), true, false, false, None), OpTensor([2], None, false, false, false, None) ],
      [1, 2, 3], [0]);
  }

  /** Two backends that support every operation, neither of which can access the other's memory. */
  ghost predicate Separate(e: Backends) {
    && e.bufts == [0, 1] && !e.opOffload
    && (forall b: nat, t: nat :: e.supportsOp(b, t)) && (forall b: nat, x: nat :: e.supportsBuft(b, x) <==> b == x)
  }

  lemma SeparateExists() returns (e: Backends)
    ensures Separate(e)
  {
    e := RawBackends([0, 1], (b: nat, t: nat) => true, (b: nat, x: nat) => b == x, (b: nat, t: nat) => false, false);
  }

  lemma LineIsInOrder(g: OpGraph)
    requires Line(g)
    ensures SingleAssignment(g)
  {
    assert forall i :: 0 <= i < 3 ==> g.nodes[i] == i + 1 && Src(g, i) == [i];
    assert forall t :: 0 <= t < 4 && t != 2 ==> g.tensors[t].viewSrc.None?;
    assert Ordered(g);
  }

  lemma NoSuggestions(g: OpGraph, e: Backends, t: nat)
    requires Line(g) && t < 4
    ensures Suggested(g, e, t, UNASSIGNED)
  {
    assert MemoryOf(g, t).None? && MemoryOf(g, Root(g, t)).None?;
    assert forall j: nat :: !IsWeight(g, t, j);
  }

  lemma PassOneKeeps(g: OpGraph, e: Backends, pinned: seq<int>)
    requires Line(g) && |pinned| == 4
    ensures FilledFromMemory(g, e, pinned, pinned, g.leafs + g.nodes)
  {
    forall t | 0 <= t < 4 ensures FilledAt(g, e, pinned[t], pinned[t], t, g.leafs + g.nodes) { NoSuggestions(g, e, t); }
  }

  // ---- the view and its reader are pinned

  predicate IsIds(s: seq<int>, a: int, b: int, c: int, d: int) {
    s == [a, b, c, d]
  }

  /** Sweeping down changes nothing when no computing node has an id to pass on to one without. */
  lemma DownKeeps(g: OpGraph, e: Backends, s: seq<int>, d: int, skipCpu: bool)
    requires Line(g) && IdsOk(g, e, s) && (IsIds(s, -1, -1, 1, d) || IsIds(s, -1, 0, 1, 0)) && -1 <= d < 1
    ensures SweptDown(g, e, s, s, 3, skipCpu)
  {
    assert Above(g, e, s, 0, skipCpu) == UNASSIGNED;
    assert TookFromAbove(g, e, s, s, 0, skipCpu);
    assert Above(g, e, s, 1, skipCpu) == Carry(g, e, s, g.nodes[0], Above(g, e, s, 0, skipCpu), skipCpu);
    assert Above(g, e, s, 2, skipCpu) == Carry(g, e, s, g.nodes[1], Above(g, e, s, 1, skipCpu), skipCpu);
    assert TookFromAbove(g, e, s, s, 1, skipCpu) && TookFromAbove(g, e, s, s, 2, skipCpu);
  }

  lemma UpFills(g: OpGraph, e: Backends, s: seq<int>, s': seq<int>)
    requires Line(g) && Separate(e) && IsIds(s, -1, -1, 1, 0) && IsIds(s', -1, 0, 1, 0)
    ensures SweptUp(g, e, s, s', 0, true)
  {
    assert Below(g, e, s', 2, true) == UNASSIGNED;
    assert Below(g, e, s', 1, true) == Carry(g, e, s', g.nodes[2], Below(g, e, s', 2, true), true) == 0;
    assert Below(g, e, s', 0, true) == Carry(g, e, s', g.nodes[1], Below(g, e, s', 1, true), true) == 0;
    assert TookFromBelow(g, e, s, s', 0, true) && TookFromBelow(g, e, s, s', 1, true)
        && TookFromBelow(g, e, s, s', 2, true);
  }

  lemma UpKeeps(g: OpGraph, e: Backends, s: seq<int>, skipCpu: bool)
    requires Line(g) && IdsOk(g, e, s) && (IsIds(s, -1, -1, 1, -1) || IsIds(s, -1, 0, 1, 0))
    ensures SweptUp(g, e, s, s, 0, skipCpu)
  {
    assert Below(g, e, s, 2, skipCpu) == UNASSIGNED;
    assert Below(g, e, s, 1, skipCpu) == Carry(g, e, s, g.nodes[2], Below(g, e, s, 2, skipCpu), skipCpu);
    assert Below(g, e, s, 0, skipCpu) == Carry(g, e, s, g.nodes[1], Below(g, e, s, 1, skipCpu), skipCpu);
    assert TookFromBelow(g, e, s, s, 0, skipCpu) && TookFromBelow(g, e, s, s, 1, skipCpu)
        && TookFromBelow(g, e, s, s, 2, skipCpu);
  }

  lemma StaleExpanded(g: OpGraph, e: Backends, s: seq<int>, s': seq<int>)
    requires Line(g) && Separate(e) && IsIds(s, -1, -1, 1, 0) && IsIds(s', -1, 0, 1, 0)
    ensures Expanded(g, e, s, s')
  {
    DownKeeps(g, e, s, 0, true);
    UpFills(g, e, s, s');
    DownKeeps(g, e, s', 0, false);
    UpKeeps(g, e, s', false);
  }

  lemma StaleUpgraded(g: OpGraph, e: Backends, s: seq<int>)
    requires Line(g) && Separate(e) && IsIds(s, -1, 0, 1, 0)
    ensures Upgraded(g, e, s, s, 3)
  {
    assert Midway(g, s, s, 0) == s && Midway(g, s, s, 1) == s && Midway(g, s, s, 2) == s;
    assert g.nodes[0] == 1 && g.nodes[1] == 2 && g.nodes[2] == 3;
    assert Decided(g, e, s, s, 0) && Decided(g, e, s, s, 1) && Decided(g, e, s, s, 2);
  }

  lemma SlotKept(g: OpGraph, s: seq<int>, i: nat)
    requires |s| == |g.tensors| && i < |g.nodes| && |Src(g, i)| > 0 && s[Src(g, i)[0]] != UNASSIGNED
    ensures AfterSlots(g, s, i, 1) == s
  {
    assert AfterSlots(g, s, i, 0) == s;
  }

  /** Pass 4 gives the leaf the backend of its reader; everything else has one. */
  lemma RestFillsLeaf(g: OpGraph, e: Backends, s: seq<int>, s': seq<int>, d: int)
    requires Line(g) && IsIds(s, -1, 0, 1, d) && IsIds(s', 0, 0, 1, d) && 0 <= d
    ensures RestOutcome(g, e, s, s', true)
  {
    var trace := [s, s', s', s'];
    assert Src(g, 0) == [0] && Src(g, 1) == [1] && Src(g, 2) == [2];
    assert AfterSlots(g, s, 0, 1) == s';
    assert StepAt(g, e, trace, 0);
    SlotKept(g, s', 1);
    SlotKept(g, s', 2);
    assert StepAt(g, e, trace, 1) && StepAt(g, e, trace, 2);
    assert AssignedAt(g, trace, 0) && AssignedAt(g, trace, 1) && AssignedAt(g, trace, 2);
    assert RestEnds(g, e, s, trace, true);
  }

  /** With the view pinned to backend 1 and its reader to backend 0, the first node joins the reader. */
  lemma StaleIds(g: OpGraph, e: Backends)
    requires Line(g) && Separate(e)
    ensures Outcome(g, e, [-1, -1, 1, 0], [0, 0, 1, 0], true)
  {
    var pinned, s3 := [-1, -1, 1, 0], [-1, 0, 1, 0];
    PassOneKeeps(g, e, pinned);
    StaleExpanded(g, e, pinned, s3);
    StaleUpgraded(g, e, s3);
    assert ThreePasses(g, e, pinned, s3);
    RestFillsLeaf(g, e, s3, [0, 0, 1, 0], 0);
  }

  lemma {:induction false} OneSplitOnly(g: OpGraph, e: Backends, ids: seq<int>, n: nat)
    requires Line(g) && IsIds(ids, 0, 0, 1, 0) && n <= 3
    ensures ScanUpTo(g, e, ids, n).start == 0 && ScanUpTo(g, e, ids, n).backend == 0
    ensures n < 3 ==> ScanUpTo(g, e, ids, n) == Scan(0, 0, 0, {})
  {
    assert Src(g, 0) == [0] && Src(g, 1) == [1] && Src(g, 2) == [2];
    if n > 0 {
      OneSplitOnly(g, e, ids, n - 1);
      if n == 1 { assert ScanSlots(g, e, ids, Scan(0, 0, 0, {}), 0, 1) == Scan(0, 0, 0, {}); }
      if n == 3 { ScanSlotsKeep(g, e, ids, Opened(g, e, ids, Scan(0, 0, 0, {}), 2), 2, 1); }
    }
  }

  /** The split copies the view when it starts, before it computes the view's root. */
  lemma PinnedViewGoesStale(g: OpGraph, e: Backends, r: SplitPlan)
    requires Line(g) && Separate(e) && WellSplit(g, e, [0, 0, 1, 0], r)
    ensures Outcome(g, e, [-1, -1, 1, 0], [0, 0, 1, 0], true)
    ensures Runnable(g, r) && exists m: Meaning, init: seq<int> :: !SameResult(g, e, [0, 0, 1, 0], r, m, init)
  {
    var ids := [0, 0, 1, 0];
    StaleIds(g, e);
    LineIsInOrder(g);
    OneSplitOnly(g, e, ids, 3);
    assert NeedsCopy(g, e, ids, Src(g, 2)[0], 0);
    assert StaleAt(g, e, ids, 0, 2, 0);
    SplittingPreservesMeaning(g, e, ids, r);
  }

  // ---- only the view is pinned

  lemma UnreadableExpanded(g: OpGraph, e: Backends, s: seq<int>)
    requires Line(g) && Separate(e) && IsIds(s, -1, -1, 1, -1)
    ensures Expanded(g, e, s, s)
  {
    DownKeeps(g, e, s, -1, true);
    UpKeeps(g, e, s, true);
    DownKeeps(g, e, s, -1, false);
    UpKeeps(g, e, s, false);
  }

  lemma UnreadableUpgraded(g: OpGraph, e: Backends, s: seq<int>, s': seq<int>)
    requires Line(g) && Separate(e) && IsIds(s, -1, -1, 1, -1) && IsIds(s', -1, 0, 1, 1)
    ensures Upgraded(g, e, s, s', 3)
  {
    var mid := [-1, 0, 1, -1];
    assert g.nodes[..0] == [] && g.nodes[..1] == [1] && g.nodes[..2] == [1, 2];
    assert Midway(g, s, s', 0) == s;
    assert Midway(g, s, s', 1) == mid;
    assert Midway(g, s, s', 2) == mid;
    FirstWithoutSources(g, e, s);
    SecondReadsView(g, e, mid);
    assert Decided(g, e, s, s', 0) && Decided(g, e, s, s', 1) && Decided(g, e, s, s', 2);
  }

  lemma FirstWithoutSources(g: OpGraph, e: Backends, s: seq<int>)
    requires Line(g) && Separate(e) && IsIds(s, -1, -1, 1, -1)
    ensures BestAmong(g, e, s, 1, 2, 0)
  {
    assert g.tensors[1].src == [0] && !Located(g, s, 0);
    CountOne(g, e, s, 0, 0);
    CountOne(g, e, s, 0, 1);
  }

  lemma SecondReadsView(g: OpGraph, e: Backends, s: seq<int>)
    requires Line(g) && Separate(e) && IsIds(s, -1, 0, 1, -1)
    ensures BestAmong(g, e, s, 3, 2, 1)
  {
    assert g.tensors[3].src == [2] && Located(g, s, 2);
    assert BufferSupported(g, e, s, 2, 1) && !BufferSupported(g, e, s, 2, 0);
    CountOne(g, e, s, 2, 0);
    CountOne(g, e, s, 2, 1);
  }

  lemma CountOne(g: OpGraph, e: Backends, s: seq<int>, t: nat, b: nat)
    requires t < |s| == |g.tensors|
    ensures CountSupported(g, e, s, [t], b) == if Located(g, s, t) && BufferSupported(g, e, s, t, b) then 1 else 0
  {
    assert CountSupported(g, e, s, [t][..0], b) == 0;
  }

  /** With only the view pinned to backend 1, its reader follows it there, away from the root. */
  lemma UnreadableIds(g: OpGraph, e: Backends)
    requires Line(g) && Separate(e)
    ensures Outcome(g, e, [-1, -1, 1, -1], [0, 0, 1, 1], true)
  {
    var pinned, s3 := [-1, -1, 1, -1], [-1, 0, 1, 1];
    PassOneKeeps(g, e, pinned);
    UnreadableExpanded(g, e, pinned);
    UnreadableUpgraded(g, e, pinned, s3);
    assert ThreePasses(g, e, pinned, s3);
    RestFillsLeaf(g, e, s3, [0, 0, 1, 1], 1);
  }

  /** The reader takes the view for readable because they have the same backend, and no copy is made. */
  lemma PinnedViewIsUnreadable(g: OpGraph, e: Backends, r: SplitPlan)
    requires Line(g) && Separate(e) && WellSplit(g, e, [0, 0, 1, 1], r)
    ensures Outcome(g, e, [-1, -1, 1, -1], [0, 0, 1, 1], true) && CopiesStayFresh(g, e, [0, 0, 1, 1])
    ensures Runnable(g, r) && exists m: Meaning, init: seq<int> :: !SameResult(g, e, [0, 0, 1, 1], r, m, init)
  {
    var ids := [0, 0, 1, 1];
    UnreadableIds(g, e);
    LineIsInOrder(g);
    assert Src(g, 0) == [0] && Src(g, 2) == [2] && !NeedsCopy(g, e, ids, 2, 1) && !NeedsCopy(g, e, ids, 0, 0);
    assert !CanAccess(g, e, ids, Src(g, 2)[0], 1);
    assert !NodeAccessible(g, e, ids, 2);
    NothingIsCopied(g, e, ids);
    SplittingPreservesMeaning(g, e, ids, r);
  }

  lemma NothingIsCopied(g: OpGraph, e: Backends, ids: seq<int>)
    requires Line(g) && Separate(e) && IsIds(ids, 0, 0, 1, 1)
    ensures CopiesStayFresh(g, e, ids)
  {
    assert Src(g, 0) == [0] && Src(g, 2) == [2];
    forall i, q, j ensures !StaleAt(g, e, ids, i, q, j) {}
  }

  // ---- the plans exist

  predicate StalePlan(r: SplitPlan) {
    r == SplitPlan([Split(0, 0, 3, [2])], [[], [0], [1], [4]], map[(2, 0) := 4])
  }

  lemma StaleCopiesAreOk(g: OpGraph, e: Backends, ids: seq<int>, r: SplitPlan)
    requires Line(g) && Separate(e) && IsIds(ids, 0, 0, 1, 0) && StalePlan(r)
    ensures CopiesOk(g, e, ids, r.splits, r.copies, 5)
  {
    var s := r.splits[0];
    assert Src(g, 2)[0] == 2 && Computing(g, g.nodes[2]);
    assert Wanted(g, s, 2);
    assert s.inputs[0] == 2;
    assert InputOk(g, e, ids, s, r.copies, 0);
    assert MadeBy(r.splits, 2, 0, 1);
  }

  lemma StaleNodesAreDone(g: OpGraph, e: Backends, ids: seq<int>, r: SplitPlan)
    requires Line(g) && Separate(e) && IsIds(ids, 0, 0, 1, 0) && StalePlan(r)
    ensures Chained(g, ids, r.splits, 3) && NodesDone(g, e, ids, r.splits, r.src, r.copies, 3, 3)
    ensures Untouched(g, r.src, 3)
  {
    assert Src(g, 0) == [0] && Src(g, 1) == [1] && Src(g, 2) == [2];
    assert r.splits[0].inputs[0] == 2;
    assert SlotsDone(g, e, ids, r.src, r.copies, 0, 0, 1) && MadeInTime(g, e, ids, r.splits, 0, 0);
    assert SlotsDone(g, e, ids, r.src, r.copies, 2, 0, 1) && MadeInTime(g, e, ids, r.splits, 0, 2);
    assert OwnBackend(g, ids, r.splits[0]);
    assert SplitDone(g, e, ids, r.src, r.copies, r.splits[0], 3);
    assert g.nodes[0] == 1 && g.nodes[1] == 2 && g.nodes[2] == 3;
  }

  /** The scan of a graph of three nodes. */
  lemma ScansOfThree(g: OpGraph, e: Backends, ids: seq<int>) returns (scans: seq<Scan>)
    requires Line(g) && |ids| == 4
    ensures |scans| == 4 && ScanRun(g, e, ids, scans)
    ensures forall p: nat :: p <= 3 ==> scans[p] == ScanUpTo(g, e, ids, p)
  {
    scans := [ScanUpTo(g, e, ids, 0), ScanUpTo(g, e, ids, 1), ScanUpTo(g, e, ids, 2), ScanUpTo(g, e, ids, 3)];
    assert ScannedAt(g, e, ids, scans, 0) && ScannedAt(g, e, ids, scans, 1) && ScannedAt(g, e, ids, scans, 2);
  }

  lemma StalePlanIsMade(g: OpGraph, e: Backends, ids: seq<int>, r: SplitPlan)
    requires Line(g) && Separate(e) && IsIds(ids, 0, 0, 1, 0) && StalePlan(r)
    ensures WellSplit(g, e, ids, r)
  {
    LineHasIds(g, ids);
    StaleIsRewired(g, e, ids, r);
    StaleIsScanned(g, e, ids, r);
  }

  lemma StaleIsRewired(g: OpGraph, e: Backends, ids: seq<int>, r: SplitPlan)
    requires Line(g) && Separate(e) && IsIds(ids, 0, 0, 1, 0) && StalePlan(r)
    ensures Rewired(g, e, ids, r)
  {
    StaleCopiesAreOk(g, e, ids, r);
    StaleNodesAreDone(g, e, ids, r);
  }

  lemma StaleIsScanned(g: OpGraph, e: Backends, ids: seq<int>, r: SplitPlan)
    requires Line(g) && Separate(e) && IsIds(ids, 0, 0, 1, 0) && StalePlan(r)
    ensures CutAsScanned(g, e, ids, r.splits)
  {
    var scans := ScansOfThree(g, e, ids);
    OneSplitOnly(g, e, ids, 0);
    OneSplitOnly(g, e, ids, 1);
    OneSplitOnly(g, e, ids, 2);
    OneSplitOnly(g, e, ids, 3);
    assert StartsThere(scans, r.splits, 0) && MadeUpTo(scans, r.splits, 0);
    assert Tracks(scans, r.splits);
  }

  lemma LineHasIds(g: OpGraph, ids: seq<int>)
    requires Line(g) && |ids| == 4 && forall t :: 0 <= t < 4 ==> ids[t] != UNASSIGNED
    ensures AllHaveIds(g, ids, 3)
  {
    forall i | 0 <= i < 3 && Computing(g, g.nodes[i]) ensures HasIds(g, ids, i) {}
  }

  predicate UnreadablePlan(r: SplitPlan) {
    r == SplitPlan([Split(0, 0, 2, []), Split(1, 2, 3, [])], [[], [0], [1], [2]], map[])
  }

  lemma {:induction false} TwoSplits(g: OpGraph, e: Backends, ids: seq<int>, n: nat)
    requires Line(g) && Separate(e) && IsIds(ids, 0, 0, 1, 1) && n <= 3
    ensures ScanUpTo(g, e, ids, n) == if n < 3 then Scan(0, 0, 0, {}) else Scan(2, 1, 0, {})
  {
    assert Src(g, 0) == [0] && Src(g, 1) == [1] && Src(g, 2) == [2];
    if n > 0 {
      TwoSplits(g, e, ids, n - 1);
      if n == 1 { assert ScanSlots(g, e, ids, Scan(0, 0, 0, {}), 0, 1) == Scan(0, 0, 0, {}); }
      if n == 3 { assert ScanSlots(g, e, ids, Scan(2, 1, 0, {}), 2, 1) == Scan(2, 1, 0, {}); }
    }
  }

  lemma UnreadablePlanIsMade(g: OpGraph, e: Backends, ids: seq<int>, r: SplitPlan)
    requires Line(g) && Separate(e) && IsIds(ids, 0, 0, 1, 1) && UnreadablePlan(r)
    ensures WellSplit(g, e, ids, r)
  {
    UnreadableIsRewired(g, e, ids, r);
    var scans := ScansOfThree(g, e, ids);
    TwoSplits(g, e, ids, 0);
    TwoSplits(g, e, ids, 1);
    TwoSplits(g, e, ids, 2);
    TwoSplits(g, e, ids, 3);
    TracksTwo(scans, r);
    LineHasIds(g, ids);
  }

  lemma TracksTwo(scans: seq<Scan>, r: SplitPlan)
    requires UnreadablePlan(r) && |scans| == 4 && scans[3] == Scan(2, 1, 0, {})
    requires scans[0] == scans[1] == scans[2] == Scan(0, 0, 0, {})
    ensures Tracks(scans, r.splits)
  {
    assert StartsThere(scans, r.splits, 0) && MadeUpTo(scans, r.splits, 0);
    assert StartsThere(scans, r.splits, 1) && MadeUpTo(scans, r.splits, 1);
  }

  lemma UnreadableSlots(g: OpGraph, e: Backends, ids: seq<int>, r: SplitPlan, p: nat, b: nat)
    requires Line(g) && Separate(e) && IsIds(ids, 0, 0, 1, 1) && UnreadablePlan(r)
    requires ((p == 0 && b == 0) || (p == 2 && b == 1))
    ensures SlotsDone(g, e, ids, r.src, r.copies, p, b, |Src(g, p)|) && MadeInTime(g, e, ids, r.splits, b, p)
  {
    assert Src(g, 0) == [0] && Src(g, 2) == [2];
    assert !NeedsCopy(g, e, ids, Src(g, p)[0], b);
  }

  lemma UnreadableIsChained(g: OpGraph, ids: seq<int>, r: SplitPlan)
    requires Line(g) && IsIds(ids, 0, 0, 1, 1) && UnreadablePlan(r)
    ensures Chained(g, ids, r.splits, 3)
  {
    assert OwnBackend(g, ids, r.splits[0]) && OwnBackend(g, ids, r.splits[1]);
  }

  lemma UnreadableIsRewired(g: OpGraph, e: Backends, ids: seq<int>, r: SplitPlan)
    requires Line(g) && Separate(e) && IsIds(ids, 0, 0, 1, 1) && UnreadablePlan(r)
    ensures Rewired(g, e, ids, r)
  {
    UnreadableIsChained(g, ids, r);
    UnreadableSlots(g, e, ids, r, 0, 0);
    UnreadableSlots(g, e, ids, r, 2, 1);
    assert SplitDone(g, e, ids, r.src, r.copies, r.splits[0], 3)
        && SplitDone(g, e, ids, r.src, r.copies, r.splits[1], 3);
    assert CopiesOk(g, e, ids, r.splits, r.copies, 4);
  }
}
