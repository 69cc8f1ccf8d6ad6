/** Where the scheduler cuts a graph into splits, stated on the splits themselves. */
module SchedCuts {
  import opened Wrappers
  import opened SchedGraphs
  import opened SchedAssign
  import opened SchedSplit

  predicate InWeights(g: OpGraph, t: nat)
    requires t < |g.tensors|
  {
    g.tensors[t].buffer.Some? && g.tensors[t].buffer.value.weights
  }

  /** Computing node `q` of split `k` reads `t`, which needs a copy that no earlier split has made. */
  ghost predicate Adds(g: OpGraph, e: Backends, ids: seq<int>, all: seq<Split>, k: nat, q: nat, t: nat)
    requires k < |all| && |ids| == |g.tensors|
  {
    && all[k].start <= q < all[k].end && q < |g.nodes| && Computing(g, g.nodes[q]) && t in Src(g, q)
    && NeedsCopy(g, e, ids, t, all[k].backend) && !MadeBy(all, t, all[k].backend, k)
  }

  // ---- what a split copies

  /** The inputs of a split are the tensors that its nodes cannot read where they are and that no earlier
      split on its backend has copied, each once. */
  lemma InputsAreExact(g: OpGraph, e: Backends, ids: seq<int>, r: SplitPlan, k: nat, t: nat)
    requires WellSplit(g, e, ids, r) && k < |r.splits|
    ensures t in r.splits[k].inputs <==> exists q :: Adds(g, e, ids, r.splits, k, q, t)
    ensures forall x, y :: 0 <= x < y < |r.splits[k].inputs| ==> r.splits[k].inputs[x] != r.splits[k].inputs[y]
  {
    var all := r.splits;
    if t in all[k].inputs { InputIsAdded(g, e, ids, r, k, t); }
    if q :| Adds(g, e, ids, all, k, q, t) {
      var j :| 0 <= j < |Src(g, q)| && Src(g, q)[j] == t;
      assert MadeInTime(g, e, ids, all, k, q);
      assert MadeBy(all, t, all[k].backend, k + 1);
    }
  }

  lemma InputIsAdded(g: OpGraph, e: Backends, ids: seq<int>, r: SplitPlan, k: nat, t: nat)
    requires WellSplit(g, e, ids, r) && k < |r.splits| && t in r.splits[k].inputs
    ensures exists q :: Adds(g, e, ids, r.splits, k, q, t)
  {
    var nextId :| CopiesOk(g, e, ids, r.splits, r.copies, nextId);
    var x :| 0 <= x < |r.splits[k].inputs| && r.splits[k].inputs[x] == t;
    NewInputIsAdded(g, e, ids, r.splits, r.copies, nextId, k, x);
  }

  lemma NewInputIsAdded(g: OpGraph, e: Backends, ids: seq<int>, all: seq<Split>, copies: Copies, nextId: nat, k: nat,
                        x: nat)
    requires CopiesOk(g, e, ids, all, copies, nextId) && k < |all| && x < |all[k].inputs|
    ensures exists q :: Adds(g, e, ids, all, k, q, all[k].inputs[x])
  {
    var t := all[k].inputs[x];
    assert InputOk(g, e, ids, all[k], copies, x);
    NotMadeBefore(all, k, x);
    var q, j :| all[k].start <= q < all[k].end && q < |g.nodes| && Computing(g, g.nodes[q]) && 0 <= j < |Src(g, q)|
        && Src(g, q)[j] == t;
    assert Adds(g, e, ids, all, k, q, t);
  }

  /** An input of a split is no input of an earlier one on its backend. */
  lemma NotMadeBefore(all: seq<Split>, k: nat, x: nat)
    requires k < |all| && x < |all[k].inputs|
    requires forall k, x, l, y ::
        0 <= k < |all| && 0 <= x < |all[k].inputs| && 0 <= l < |all| && 0 <= y < |all[l].inputs| ==>
          all[k].inputs[x] != all[l].inputs[y] || all[k].backend != all[l].backend || (k == l && x == y)
    ensures !MadeBy(all, all[k].inputs[x], all[k].backend, k)
  {
  }

  // ---- the scan within a split

  lemma {:induction false} SlotsAdd(g: OpGraph, e: Backends, ids: seq<int>, s: Scan, i: nat, j: nat)
    requires i < |g.nodes| && j <= |Src(g, i)| && |ids| == |g.tensors|
    ensures var s' := ScanSlots(g, e, ids, s, i, j);
            && s.made <= s'.made && s'.start == s.start && s'.backend == s.backend
            && forall m :: 0 <= m < j && NeedsCopy(g, e, ids, Src(g, i)[m], s.backend) ==>
                 (Src(g, i)[m], s.backend) in s'.made
  {
    if j > 0 { SlotsAdd(g, e, ids, s, i, j - 1); }
  }

  /** The inputs counted since the split was opened, with `base` the copies there were then. */
  ghost predicate CountsFrom(s: Scan, base: set<(nat, nat)>) {
    base <= s.made && s.inputs == |s.made - base|
  }

  lemma CountsSlot(g: OpGraph, e: Backends, ids: seq<int>, s: Scan, t: nat, base: set<(nat, nat)>)
    requires t < |g.tensors| == |ids| && CountsFrom(s, base)
    ensures CountsFrom(ScanSlot(g, e, ids, s, t), base)
  {
    if (t, s.backend) !in s.made {
      assert s.made + {(t, s.backend)} - base == (s.made - base) + {(t, s.backend)};
    }
  }

  lemma {:induction false} CountsSlots(g: OpGraph, e: Backends, ids: seq<int>, s: Scan, i: nat, j: nat,
                                       base: set<(nat, nat)>)
    requires i < |g.nodes| && j <= |Src(g, i)| && |ids| == |g.tensors| && CountsFrom(s, base)
    ensures CountsFrom(ScanSlots(g, e, ids, s, i, j), base)
  {
    if j > 0 {
      CountsSlots(g, e, ids, s, i, j - 1, base);
      CountsSlot(g, e, ids, ScanSlots(g, e, ids, s, i, j - 1), Src(g, i)[j - 1], base);
    }
  }

  /** The copies made before the split that is open at node `p`. */
  function Base(scans: seq<Scan>, p: nat): set<(nat, nat)>
    requires p < |scans|
  {
    if scans[p].start < |scans| then scans[scans[p].start].made else {}
  }

  lemma {:induction false} Counting(g: OpGraph, e: Backends, ids: seq<int>, scans: seq<Scan>, p: nat)
    requires ScanRun(g, e, ids, scans) && p < |scans|
    ensures scans[p].start <= p && CountsFrom(scans[p], Base(scans, p))
  {
    if p > 0 {
      Counting(g, e, ids, scans, p - 1);
      assert ScannedAt(g, e, ids, scans, p - 1);
      if Computing(g, g.nodes[p - 1]) { CountsNode(g, e, ids, scans, p - 1); }
    }
  }

  lemma CountsNode(g: OpGraph, e: Backends, ids: seq<int>, scans: seq<Scan>, p: nat)
    requires p + 1 < |scans| && p < |g.nodes| && |ids| == |g.tensors| && Computing(g, g.nodes[p])
    requires scans[p + 1] == ScanNode(g, e, ids, scans[p], p)
    requires scans[p].start <= p && CountsFrom(scans[p], Base(scans, p))
    ensures scans[p + 1].start <= p && CountsFrom(scans[p + 1], Base(scans, p + 1))
  {
    var s := scans[p];
    var o := Opened(g, e, ids, s, p);
    var base := if CutsAt(g, e, ids, s, p) then s.made else Base(scans, p);
    assert CountsFrom(o, base) by { assert s.made - s.made == {}; }
    SlotsAdd(g, e, ids, o, p, |Src(g, p)|);
    CountsSlots(g, e, ids, o, p, |Src(g, p)|, base);
    assert Base(scans, p + 1) == base;
  }

  lemma {:induction false} MadeGrows(g: OpGraph, e: Backends, ids: seq<int>, scans: seq<Scan>, p: nat, q: nat)
    requires ScanRun(g, e, ids, scans) && p <= q < |scans|
    ensures scans[p].made <= scans[q].made
    decreases q
  {
    if p < q {
      MadeGrows(g, e, ids, scans, p, q - 1);
      assert ScannedAt(g, e, ids, scans, q - 1);
      if Computing(g, g.nodes[q - 1]) {
        SlotsAdd(g, e, ids, Opened(g, e, ids, scans[q - 1], q - 1), q - 1, |Src(g, q - 1)|);
      }
    }
  }

  /** A node starts a split exactly if the scan then says that the open split starts there. */
  lemma CutShows(g: OpGraph, e: Backends, ids: seq<int>, scans: seq<Scan>, p: nat)
    requires ScanRun(g, e, ids, scans) && p + 1 < |scans|
    ensures scans[p + 1].start == if CutsAt(g, e, ids, scans[p], p) then p else scans[p].start
    ensures Computing(g, g.nodes[p]) ==>
        forall t :: t in Src(g, p) && NeedsCopy(g, e, ids, t, scans[p + 1].backend) ==>
          (t, scans[p + 1].backend) in scans[p + 1].made
  {
    assert ScannedAt(g, e, ids, scans, p);
    if Computing(g, g.nodes[p]) { SlotsAdd(g, e, ids, Opened(g, e, ids, scans[p], p), p, |Src(g, p)|); }
  }

  /** The scan of the whole graph that the splits were cut by. */
  ghost predicate Guides(g: OpGraph, e: Backends, ids: seq<int>, scans: seq<Scan>, all: seq<Split>) {
    |scans| == |g.nodes| + 1 && ScanRun(g, e, ids, scans) && Tracks(scans, all)
  }

  lemma GuideOf(g: OpGraph, e: Backends, ids: seq<int>, all: seq<Split>) returns (scans: seq<Scan>)
    requires CutAsScanned(g, e, ids, all)
    ensures Guides(g, e, ids, scans, all)
  {
    scans :| |scans| == |g.nodes| + 1 && ScanRun(g, e, ids, scans) && Tracks(scans, all);
  }

  // ---- the cuts

  /** A node that reads a weight which has to be copied comes before everything else that the split copies. */
  lemma WeightsOpenSplits(g: OpGraph, e: Backends, ids: seq<int>, r: SplitPlan, k: nat, p: nat, w: nat, q: nat, t: nat)
    requires WellSplit(g, e, ids, r) && k < |r.splits| && r.splits[k].start <= q < p < r.splits[k].end
    requires Computing(g, g.nodes[p]) && w in Src(g, p) && InWeights(g, w)
    requires NeedsCopy(g, e, ids, w, r.splits[k].backend)
    ensures !Adds(g, e, ids, r.splits, k, q, t)
  {
    if Adds(g, e, ids, r.splits, k, q, t) {
      var scans := GuideOf(g, e, ids, r.splits);
      WeightCuts(g, e, ids, r.splits, scans, k, p, w, q, t);
    }
  }

  /** The scan would have cut at node `p`. */
  lemma WeightCuts(g: OpGraph, e: Backends, ids: seq<int>, all: seq<Split>, scans: seq<Scan>, k: nat, p: nat, w: nat,
                   q: nat, t: nat)
    requires k < |all| && |ids| == |g.tensors| && Guides(g, e, ids, scans, all)
    requires all[k].start <= q < p < all[k].end <= |g.nodes| && Computing(g, g.nodes[p])
    requires w in Src(g, p) && InWeights(g, w) && NeedsCopy(g, e, ids, w, all[k].backend)
    ensures !Adds(g, e, ids, all, k, q, t)
  {
    if Adds(g, e, ids, all, k, q, t) {
      assert StartsThere(scans, all, k);
      InputsBefore(g, e, ids, all, scans, k, p, q, t);
      var j :| 0 <= j < |Src(g, p)| && Src(g, p)[j] == w;
      assert Crowds(g, e, ids, scans[p], Src(g, p)[j]);
      CutShows(g, e, ids, scans, p);
      assert false;
    }
  }

  /** When node `p` is reached, the copy that node `q` has added counts. */
  lemma InputsBefore(g: OpGraph, e: Backends, ids: seq<int>, all: seq<Split>, scans: seq<Scan>, k: nat, p: nat, q: nat,
                     t: nat)
    requires k < |all| && |ids| == |g.tensors| && Guides(g, e, ids, scans, all)
    requires all[k].start <= q < p < all[k].end && Adds(g, e, ids, all, k, q, t)
    ensures p < |g.nodes| && scans[p].inputs > 0
    ensures scans[p].start == all[k].start && scans[p].backend == all[k].backend
  {
    var b := all[k].backend;
    assert StartsThere(scans, all, k) && MadeUpTo(scans, all, k);
    CutShows(g, e, ids, scans, q);
    MadeGrows(g, e, ids, scans, q + 1, p);
    assert scans[q + 1].backend == b;
    assert (t, b) in scans[p].made && (t, b) !in scans[all[k].start].made;
    Counting(g, e, ids, scans, p);
    assert (t, b) in scans[p].made - Base(scans, p);
  }

  /** Why a split starts although the backend stays the same: its first node reads a weight that has to be
      copied, and the split before copies something, or it needs another copy, and the split before
      is full. */
  ghost predicate CutForInputs(g: OpGraph, e: Backends, ids: seq<int>, all: seq<Split>, k: nat)
    requires k + 1 < |all| && |ids| == |g.tensors|
  {
    var p, b := all[k + 1].start, all[k].backend;
    && p < |g.nodes| && Computing(g, g.nodes[p])
    && exists t :: t in Src(g, p) && NeedsCopy(g, e, ids, t, b)
         && ((InWeights(g, t) && all[k].inputs != [])
             || (|all[k].inputs| == MAX_SPLIT_INPUTS && !MadeBy(all, t, b, k + 1)))
  }

  lemma CutsAreNeeded(g: OpGraph, e: Backends, ids: seq<int>, r: SplitPlan, k: nat)
    requires WellSplit(g, e, ids, r) && k + 1 < |r.splits| && r.splits[k].backend == r.splits[k + 1].backend
    ensures CutForInputs(g, e, ids, r.splits, k)
  {
    var scans := GuideOf(g, e, ids, r.splits);
    var nextId :| CopiesOk(g, e, ids, r.splits, r.copies, nextId);
    CutIsNeeded(g, e, ids, r.splits, r.copies, nextId, scans, k);
  }

  lemma CutIsNeeded(g: OpGraph, e: Backends, ids: seq<int>, all: seq<Split>, copies: Copies, nextId: nat,
                    scans: seq<Scan>, k: nat)
    requires Chained(g, ids, all, |g.nodes|) && NoneEmpty(all) && CopiesOk(g, e, ids, all, copies, nextId)
    requires Guides(g, e, ids, scans, all) && k + 1 < |all|
    requires all[k].backend == all[k + 1].backend
    ensures CutForInputs(g, e, ids, all, k)
  {
    var p := all[k + 1].start;
    SplitIsCut(g, ids, e, all, scans, k);
    InputsCounted(g, e, ids, all, copies, nextId, k, scans);
    var j :| 0 <= j < |Src(g, p)| && Crowds(g, e, ids, scans[p], Src(g, p)[j]);
    assert Src(g, p)[j] in Src(g, p);
  }

  /** What the scan knows when it comes to the first node of a split on the same backend. */
  lemma SplitIsCut(g: OpGraph, ids: seq<int>, e: Backends, all: seq<Split>, scans: seq<Scan>, k: nat)
    requires Chained(g, ids, all, |g.nodes|) && NoneEmpty(all) && k + 1 < |all|
    requires Guides(g, e, ids, scans, all)
    requires all[k].backend == all[k + 1].backend
    ensures var p := all[k + 1].start;
            && p < |g.nodes| && Computing(g, g.nodes[p]) && scans[p].backend == all[k].backend
            && (exists j :: 0 <= j < |Src(g, p)| && Crowds(g, e, ids, scans[p], Src(g, p)[j])) && scans[p].inputs > 0
            && forall t: nat :: (t, all[k].backend) in scans[p].made <==> MadeBy(all, t, all[k].backend, k + 1)
  {
    var p := all[k + 1].start;
    assert StartsThere(scans, all, k) && StartsThere(scans, all, k + 1) && MadeUpTo(scans, all, k + 1);
    CutShows(g, e, ids, scans, p);
    assert scans[p + 1].start == p && scans[p].start == all[k].start;
    assert OwnBackend(g, ids, all[k + 1]);
  }

  /** At the end of a split the scan has counted its inputs. */
  lemma InputsCounted(g: OpGraph, e: Backends, ids: seq<int>, all: seq<Split>, copies: Copies, nextId: nat, k: nat,
                      scans: seq<Scan>)
    requires Chained(g, ids, all, |g.nodes|) && CopiesOk(g, e, ids, all, copies, nextId) && k + 1 < |all|
    requires all[k].start < all[k].end
    requires Guides(g, e, ids, scans, all)
    ensures scans[all[k + 1].start].inputs == |all[k].inputs|
  {
    var p, b := all[k + 1].start, all[k].backend;
    assert StartsThere(scans, all, k) && MadeUpTo(scans, all, k) && MadeUpTo(scans, all, k + 1);
    Counting(g, e, ids, scans, p);
    assert Base(scans, p) == scans[all[k].start].made;
    MadeHere(all, k, scans[all[k].start].made, scans[p].made);
    PairsOf(all[k].inputs, b);
  }

  function Pairs(inputs: seq<nat>, b: nat): set<(nat, nat)> {
    set t | t in inputs :: (t, b)
  }

  lemma MadeHere(all: seq<Split>, k: nat, before: set<(nat, nat)>, after: set<(nat, nat)>)
    requires k < |all|
    requires forall t: nat, b: nat :: (t, b) in before <==> MadeBy(all, t, b, k)
    requires forall t: nat, b: nat :: (t, b) in after <==> MadeBy(all, t, b, k + 1)
    requires forall k, x, l, y ::
        0 <= k < |all| && 0 <= x < |all[k].inputs| && 0 <= l < |all| && 0 <= y < |all[l].inputs| ==>
          all[k].inputs[x] != all[l].inputs[y] || all[k].backend != all[l].backend || (k == l && x == y)
    ensures after - before == Pairs(all[k].inputs, all[k].backend)
  {
    forall c: (nat, nat) ensures c in after - before <==> c in Pairs(all[k].inputs, all[k].backend) {
      var (t, b) := c;
      if MadeBy(all, t, b, k + 1) && !MadeBy(all, t, b, k) {
        assert t in all[k].inputs && b == all[k].backend;
      }
      if t in all[k].inputs && b == all[k].backend {
        var x :| 0 <= x < |all[k].inputs| && all[k].inputs[x] == t;
        NotMadeBefore(all, k, x);
        assert MadeBy(all, t, b, k + 1);
      }
    }
  }

  lemma {:induction false} PairsOf(inputs: seq<nat>, b: nat)
    requires forall x, y :: 0 <= x < y < |inputs| ==> inputs[x] != inputs[y]
    ensures |Pairs(inputs, b)| == |inputs|
  {
    if inputs != [] {
      var n := |inputs| - 1;
      PairsOf(inputs[..n], b);
      assert inputs == inputs[..n] + [inputs[n]];
      assert Pairs(inputs, b) == Pairs(inputs[..n], b) + {(inputs[n], b)};
    }
  }
}
