/** The fifth pass: the node range is cut into splits, and sources a split's backend cannot read are
    replaced by copies that are made when the split starts. */
module SchedSplit {
  import opened Wrappers
  import opened SchedGraphs
  import opened SchedAssign

  const MAX_SPLIT_INPUTS := 30

  /** The fixed table of a split's inputs. */
  type Inputs = s: seq<nat> | |s| <= MAX_SPLIT_INPUTS

  datatype Split = Split(backend: nat, start: nat, end: nat, inputs: Inputs)

  /** Copies by original tensor and backend. */
  type Copies = map<(nat, nat), nat>

  /** The result: splits, rewritten sources of every tensor, and the copies that were created. */
  datatype SplitPlan = SplitPlan(splits: seq<Split>, src: seq<seq<nat>>, copies: Copies)

  /** Backend `b` neither hosts `t` nor can read it where it is. */
  predicate NeedsCopy(g: OpGraph, e: Backends, ids: seq<int>, t: nat, b: nat)
    requires t < |g.tensors| == |ids|
  {
    ids[t] != b && !BufferSupported(g, e, ids, t, b)
  }

  /** A source `t` of a node on backend `b` and what it was rewritten to. */
  predicate SlotDone(g: OpGraph, e: Backends, ids: seq<int>, copies: Copies, t: nat, t': nat, b: nat)
    requires t < |g.tensors| == |ids|
  {
    if NeedsCopy(g, e, ids, t, b) then (t, b) in copies && t' == copies[(t, b)] else t' == t
  }

  // ---- the pieces of the result

  /** The splits follow each other, cover the first `n` nodes, and hold computing nodes of their own
      backend only. */
  ghost predicate Chained(g: OpGraph, ids: seq<int>, all: seq<Split>, n: nat) {
    && |all| > 0 && n <= |g.nodes| && |ids| == |g.tensors|
    && all[0].start == 0 && all[|all| - 1].end == n
    && (forall k :: 0 <= k < |all| ==> all[k].start <= all[k].end <= n && OwnBackend(g, ids, all[k]))
    && (forall k :: 0 <= k < |all| - 1 ==> all[k].end == all[k + 1].start)
  }

  ghost predicate OwnBackend(g: OpGraph, ids: seq<int>, s: Split)
    requires s.end <= |g.nodes| && |ids| == |g.tensors|
  {
    forall p :: s.start <= p < s.end && Computing(g, g.nodes[p]) ==> ids[g.nodes[p]] == s.backend
  }

  /** The first `m` slots of node `p`, which runs on backend `b`, have been rewritten. */
  ghost predicate SlotsDone(g: OpGraph, e: Backends, ids: seq<int>, src: seq<seq<nat>>, copies: Copies, p: nat,
                            b: nat, m: nat)
    requires p < |g.nodes| && |src| == |ids| == |g.tensors|
  {
    && |src[g.nodes[p]]| == |Src(g, p)| && m <= |Src(g, p)|
    && (forall j :: 0 <= j < m ==> SlotDone(g, e, ids, copies, Src(g, p)[j], src[g.nodes[p]][j], b))
    && (forall j :: m <= j < |Src(g, p)| ==> src[g.nodes[p]][j] == Src(g, p)[j])
  }

  /** All computing nodes of the split below `i` are rewritten. */
  ghost predicate SplitDone(g: OpGraph, e: Backends, ids: seq<int>, src: seq<seq<nat>>, copies: Copies, s: Split,
                            i: nat)
    requires s.end <= |g.nodes| && |src| == |ids| == |g.tensors|
  {
    forall p ::
        s.start <= p < s.end && p < i && Computing(g, g.nodes[p]) ==>
        SlotsDone(g, e, ids, src, copies, p, s.backend, |Src(g, p)|)
  }

  /** Sources of everything but the computing nodes below `i` are as in the graph. */
  ghost predicate Untouched(g: OpGraph, src: seq<seq<nat>>, i: nat) {
    |src| == |g.tensors| &&
    forall t ::
        0 <= t < |src| && !(exists p :: 0 <= p < i && p < |g.nodes| && g.nodes[p] == t && Computing(g, t)) ==>
        src[t] == g.tensors[t].src
  }

  /** Node `p` of the split has `t` among its sources. */
  ghost predicate Wanted(g: OpGraph, s: Split, t: nat) {
    exists p, j ::
        s.start <= p < s.end && p < |g.nodes| && Computing(g, g.nodes[p]) && 0 <= j < |Src(g, p)| && Src(g, p)[j] == t
  }

  /** The copies are exactly the inputs of the splits, each made once, in the first split on its
      backend that wants it; all copies are new tensors and distinct. */
  ghost predicate CopiesOk(g: OpGraph, e: Backends, ids: seq<int>, all: seq<Split>, copies: Copies, nextId: nat) {
    && |ids| == |g.tensors| <= nextId
    && (forall k, x :: 0 <= k < |all| && 0 <= x < |all[k].inputs| ==> InputOk(g, e, ids, all[k], copies, x))
    && (forall k, x, l, y ::
        0 <= k < |all| && 0 <= x < |all[k].inputs| && 0 <= l < |all| && 0 <= y < |all[l].inputs| ==>
          all[k].inputs[x] != all[l].inputs[y] || all[k].backend != all[l].backend || (k == l && x == y))
    && (forall c :: c in copies ==> |g.tensors| <= copies[c] < nextId && MadeBy(all, c.0, c.1, |all|))
    && (forall c, d :: c in copies && d in copies && c != d ==> copies[c] != copies[d])
  }

  ghost predicate InputOk(g: OpGraph, e: Backends, ids: seq<int>, s: Split, copies: Copies, x: nat)
    requires x < |s.inputs| && |ids| == |g.tensors|
  {
    var t := s.inputs[x];
    t < |g.tensors| && (t, s.backend) in copies && NeedsCopy(g, e, ids, t, s.backend) && Wanted(g, s, t)
  }

  /** One of the first `n` splits runs on `b` and has `t` as an input. */
  ghost predicate MadeBy(all: seq<Split>, t: nat, b: nat, n: nat) {
    exists k :: 0 <= k < n && k < |all| && all[k].backend == b && t in all[k].inputs
  }

  /** Whatever a split reads through a copy is copied by it or by an earlier split. */
  ghost predicate MadeInTime(g: OpGraph, e: Backends, ids: seq<int>, all: seq<Split>, k: nat, p: nat)
    requires k < |all| && p < |g.nodes| && |ids| == |g.tensors|
  {
    forall j ::
        0 <= j < |Src(g, p)| && NeedsCopy(g, e, ids, Src(g, p)[j], all[k].backend) ==>
        MadeBy(all, Src(g, p)[j], all[k].backend, k + 1)
  }

  /** Nodes below `i` are rewritten, and their copies are made in time. */
  ghost predicate NodesDone(g: OpGraph, e: Backends, ids: seq<int>, all: seq<Split>, src: seq<seq<nat>>,
                            copies: Copies, n: nat, i: nat)
    requires Chained(g, ids, all, n) && |src| == |g.tensors|
  {
    forall k :: 0 <= k < |all| ==>
      && SplitDone(g, e, ids, src, copies, all[k], i)
      && forall p ::
          all[k].start <= p < all[k].end && p < i && Computing(g, g.nodes[p]) ==> MadeInTime(g, e, ids, all, k, p)
  }

  // ---- where the cuts are

  /** What is known when the pass comes to a node: the start and the backend of the open split, how
      many inputs it has, and the copies made so far. */
  datatype Scan = Scan(start: nat, backend: nat, inputs: nat, made: set<(nat, nat)>)

  function IdOf(ids: seq<int>, t: nat): nat
    requires t < |ids|
  {
    if ids[t] < 0 then 0 else ids[t]
  }

  /** The backend of the first computing node from `i` on. */
  function FirstId(g: OpGraph, ids: seq<int>, i: nat): nat
    requires |ids| == |g.tensors|
    decreases |g.nodes| - i
  {
    if i >= |g.nodes| then 0 else if Computing(g, g.nodes[i]) then IdOf(ids, g.nodes[i]) else FirstId(g, ids, i + 1)
  }

  /** Passing a source `t`: it becomes an input unless it can be read or has been copied. */
  function ScanSlot(g: OpGraph, e: Backends, ids: seq<int>, s: Scan, t: nat): Scan
    requires t < |g.tensors| == |ids|
  {
    if NeedsCopy(g, e, ids, t, s.backend) && (t, s.backend) !in s.made
    then s.(inputs := s.inputs + 1, made := s.made + {(t, s.backend)}) else s
  }

  function ScanSlots(g: OpGraph, e: Backends, ids: seq<int>, s: Scan, i: nat, j: nat): Scan
    requires i < |g.nodes| && j <= |Src(g, i)| && |ids| == |g.tensors|
  {
    if j == 0 then s else ScanSlot(g, e, ids, ScanSlots(g, e, ids, s, i, j - 1), Src(g, i)[j - 1])
  }

  /** A source `t` has a backend, and the open split has room for a copy of it if one is to be made. */
  predicate SlotPasses(g: OpGraph, e: Backends, ids: seq<int>, s: Scan, t: nat)
    requires t < |g.tensors| == |ids|
  {
    && ids[t] != UNASSIGNED
    && (NeedsCopy(g, e, ids, t, s.backend) && (t, s.backend) !in s.made ==> s.inputs < MAX_SPLIT_INPUTS)
  }

  /** So does every source of node `i`, when the pass comes to it. */
  ghost predicate NodePasses(g: OpGraph, e: Backends, ids: seq<int>, s: Scan, i: nat)
    requires i < |g.nodes| && |ids| == |g.tensors|
  {
    forall j :: 0 <= j < |Src(g, i)| ==> SlotPasses(g, e, ids, ScanSlots(g, e, ids, s, i, j), Src(g, i)[j])
  }

  /** The scan before, between and after the first `j` slots, all of which pass. */
  ghost predicate ScanTrace(g: OpGraph, e: Backends, ids: seq<int>, trace: seq<Scan>, i: nat, j: nat) {
    && i < |g.nodes| && j <= |Src(g, i)| && |ids| == |g.tensors| && |trace| == j + 1
    && forall k ::
        0 <= k < j ==>
        trace[k + 1] == ScanSlot(g, e, ids, trace[k], Src(g, i)[k]) && SlotPasses(g, e, ids, trace[k], Src(g, i)[k])
  }

  ghost function LongerTrace(g: OpGraph, e: Backends, ids: seq<int>, trace: seq<Scan>, i: nat,
                             j: nat): (longer: seq<Scan>)
    requires ScanTrace(g, e, ids, trace, i, j) && j < |Src(g, i)| && SlotPasses(g, e, ids, trace[j], Src(g, i)[j])
    ensures ScanTrace(g, e, ids, longer, i, j + 1) && longer[0] == trace[0]
    ensures longer[j + 1] == ScanSlot(g, e, ids, trace[j], Src(g, i)[j])
  {
    trace + [ScanSlot(g, e, ids, trace[j], Src(g, i)[j])]
  }

  lemma {:induction false} TraceIsScan(g: OpGraph, e: Backends, ids: seq<int>, trace: seq<Scan>, i: nat, j: nat)
    requires |trace| > j && ScanTrace(g, e, ids, trace[..j + 1], i, j)
    ensures trace[j] == ScanSlots(g, e, ids, trace[0], i, j)
  {
    if j > 0 {
      forall k | 0 <= k < j - 1
        ensures trace[k + 1] == ScanSlot(g, e, ids, trace[k], Src(g, i)[k])
                && SlotPasses(g, e, ids, trace[k], Src(g, i)[k])
      {
        assert trace[..j + 1][k] == trace[k] && trace[..j + 1][k + 1] == trace[k + 1];
      }
      TraceIsScan(g, e, ids, trace, i, j - 1);
      assert trace[..j + 1][j - 1] == trace[j - 1] && trace[..j + 1][j] == trace[j];
    }
  }

  /** Every slot that was passed passes where the scan comes to it. */
  lemma TracePasses(g: OpGraph, e: Backends, ids: seq<int>, trace: seq<Scan>, i: nat, j: nat)
    requires ScanTrace(g, e, ids, trace, i, j)
    ensures trace[j] == ScanSlots(g, e, ids, trace[0], i, j)
    ensures forall k :: 0 <= k < j ==> SlotPasses(g, e, ids, ScanSlots(g, e, ids, trace[0], i, k), Src(g, i)[k])
  {
    forall k | 0 <= k <= j ensures trace[k] == ScanSlots(g, e, ids, trace[0], i, k) {
      assert ScanTrace(g, e, ids, trace[..k + 1], i, k);
      TraceIsScan(g, e, ids, trace, i, k);
    }
  }

  /** A source for which the split is closed although the backend is the same: a weight that would have
      to be copied, or a copy for which a full split has no room. */
  predicate Crowds(g: OpGraph, e: Backends, ids: seq<int>, s: Scan, t: nat)
    requires t < |g.tensors| == |ids|
  {
    NeedsCopy(g, e, ids, t, s.backend) &&
    ((g.tensors[t].buffer.Some? && g.tensors[t].buffer.value.weights)
        || (s.inputs == MAX_SPLIT_INPUTS && (t, s.backend) !in s.made))
  }

  /** A new split starts at node `i`. */
  predicate CutsAt(g: OpGraph, e: Backends, ids: seq<int>, s: Scan, i: nat)
    requires i < |g.nodes| && |ids| == |g.tensors|
  {
    && Computing(g, g.nodes[i])
    && (IdOf(ids, g.nodes[i]) != s.backend
        || (s.inputs > 0 && exists j :: 0 <= j < |Src(g, i)| && Crowds(g, e, ids, s, Src(g, i)[j])))
  }

  function Opened(g: OpGraph, e: Backends, ids: seq<int>, s: Scan, i: nat): Scan
    requires i < |g.nodes| && |ids| == |g.tensors|
  {
    if CutsAt(g, e, ids, s, i) then Scan(i, IdOf(ids, g.nodes[i]), 0, s.made) else s
  }

  function ScanNode(g: OpGraph, e: Backends, ids: seq<int>, s: Scan, i: nat): Scan
    requires i < |g.nodes| && |ids| == |g.tensors|
  {
    if Computing(g, g.nodes[i]) then ScanSlots(g, e, ids, Opened(g, e, ids, s, i), i, |Src(g, i)|) else s
  }

  /** The graph, the backends and the ids alone say where the pass cuts. */
  function ScanUpTo(g: OpGraph, e: Backends, ids: seq<int>, n: nat): Scan
    requires n <= |g.nodes| && |ids| == |g.tensors|
  {
    if n == 0 then Scan(0, FirstId(g, ids, 0), 0, {}) else ScanNode(g, e, ids, ScanUpTo(g, e, ids, n - 1), n - 1)
  }

  /** The pass gets past node `i`: it and its sources have backends, and no split overflows. */
  ghost predicate Takeable(g: OpGraph, e: Backends, ids: seq<int>, s: Scan, i: nat)
    requires i < |g.nodes| && |ids| == |g.tensors|
  {
    Computing(g, g.nodes[i]) ==>
      ids[g.nodes[i]] != UNASSIGNED && NodePasses(g, e, ids, Opened(g, e, ids, s, i), i)
  }

  /** It gets past the first `n` nodes. */
  ghost predicate TakesAll(g: OpGraph, e: Backends, ids: seq<int>, n: nat) {
    n <= |g.nodes| && |ids| == |g.tensors| && forall i :: 0 <= i < n ==> Takeable(g, e, ids, ScanUpTo(g, e, ids, i), i)
  }

  lemma NotTaken(g: OpGraph, e: Backends, ids: seq<int>, i: nat)
    requires i < |g.nodes| && |ids| == |g.tensors| && !Takeable(g, e, ids, ScanUpTo(g, e, ids, i), i)
    ensures !TakesAll(g, e, ids, |g.nodes|)
  {
  }

  /** Where the split of node `p` starts. */
  function StartOf(g: OpGraph, e: Backends, ids: seq<int>, p: nat): nat
    requires p < |g.nodes| && |ids| == |g.tensors|
  {
    ScanUpTo(g, e, ids, p + 1).start
  }

  ghost predicate ScannedAt(g: OpGraph, e: Backends, ids: seq<int>, scans: seq<Scan>, p: nat)
    requires p + 1 < |scans| && p < |g.nodes| && |ids| == |g.tensors|
  {
    scans[p + 1] == ScanNode(g, e, ids, scans[p], p)
  }

  /** The scan before, between and after the first nodes. */
  ghost predicate ScanRun(g: OpGraph, e: Backends, ids: seq<int>, scans: seq<Scan>) {
    && 0 < |scans| <= |g.nodes| + 1 && |ids| == |g.tensors| && scans[0] == Scan(0, FirstId(g, ids, 0), 0, {})
    && forall p :: 0 <= p < |scans| - 1 ==> ScannedAt(g, e, ids, scans, p)
  }

  lemma {:induction false} RunIsScan(g: OpGraph, e: Backends, ids: seq<int>, scans: seq<Scan>, n: nat)
    requires ScanRun(g, e, ids, scans) && n < |scans|
    ensures scans[n] == ScanUpTo(g, e, ids, n)
  {
    if n > 0 {
      RunIsScan(g, e, ids, scans, n - 1);
      assert ScannedAt(g, e, ids, scans, n - 1);
    }
  }

  /** The copies made before split `k` are those of the splits before it. */
  ghost predicate MadeUpTo(scans: seq<Scan>, all: seq<Split>, k: nat)
    requires k < |all|
  {
    all[k].start < |scans| && forall t: nat, b: nat :: (t, b) in scans[all[k].start].made <==> MadeBy(all, t, b, k)
  }

  /** All nodes of split `k` belong to the split that starts there, on its backend. */
  ghost predicate StartsThere(scans: seq<Scan>, all: seq<Split>, k: nat)
    requires k < |all|
  {
    all[k].end < |scans| && forall p: nat :: all[k].start < p <= all[k].end ==>
      scans[p].start == all[k].start && scans[p].backend == all[k].backend
  }

  /** The graph is cut exactly where the scan says, and copies are made when it says. */
  ghost predicate Tracks(scans: seq<Scan>, all: seq<Split>) {
    |all| > 0 && forall k :: 0 <= k < |all| ==> StartsThere(scans, all, k) && MadeUpTo(scans, all, k)
  }

  ghost predicate CutAsScanned(g: OpGraph, e: Backends, ids: seq<int>, all: seq<Split>) {
    exists scans :: |scans| == |g.nodes| + 1 && ScanRun(g, e, ids, scans) && Tracks(scans, all)
  }

  /** Every split holds a node. */
  ghost predicate NoneEmpty(all: seq<Split>) {
    forall k :: 0 <= k < |all| ==> all[k].start < all[k].end
  }

  /** The open split and the copies are as the scan says. */
  ghost predicate Follows(s: Scan, all: seq<Split>, copies: Copies) {
    && |all| > 0 && s.start == all[|all| - 1].start && s.backend == all[|all| - 1].backend
    && s.inputs == |all[|all| - 1].inputs|
    && s.made == copies.Keys
  }

  /** The splits, the copies and the rewritten sources fit together. */
  ghost predicate Rewired(g: OpGraph, e: Backends, ids: seq<int>, r: SplitPlan) {
    && Chained(g, ids, r.splits, |g.nodes|) && Untouched(g, r.src, |g.nodes|)
    && NodesDone(g, e, ids, r.splits, r.src, r.copies, |g.nodes|, |g.nodes|)
    && (exists nextId :: CopiesOk(g, e, ids, r.splits, r.copies, nextId))
  }

  /** What the pass promises. */
  ghost predicate WellSplit(g: OpGraph, e: Backends, ids: seq<int>, r: SplitPlan) {
    && Rewired(g, e, ids, r) && CutAsScanned(g, e, ids, r.splits) && AllHaveIds(g, ids, |g.nodes|)
    && (|r.splits| > 1 ==> NoneEmpty(r.splits))
  }

  /** The state while `n` nodes are in splits and the nodes below `i` are rewritten. */
  ghost predicate Between(g: OpGraph, e: Backends, ids: seq<int>, r: SplitPlan, nextId: nat, n: nat, i: nat) {
    && IdsOk(g, e, ids) && |r.src| == |g.tensors|
    && Chained(g, ids, r.splits, n) && i <= n
    && Untouched(g, r.src, n)
    && NodesDone(g, e, ids, r.splits, r.src, r.copies, n, i)
    && CopiesOk(g, e, ids, r.splits, r.copies, nextId)
  }

  /** The state while the slots of node `i`, the last one in the last split, are being rewritten. */
  ghost predicate Within(g: OpGraph, e: Backends, ids: seq<int>, r: SplitPlan, nextId: nat, i: nat, j: nat) {
    && i < |g.nodes| && Computing(g, g.nodes[i])
    && Between(g, e, ids, r, nextId, i + 1, i)
    && r.splits[|r.splits| - 1].start <= i
    && SlotsDone(g, e, ids, r.src, r.copies, i, r.splits[|r.splits| - 1].backend, j)
    && FirstMadeInTime(g, e, ids, r.splits, i, j)
  }

  /** The scan has come to node `i`, and the splits are as it says. */
  ghost predicate ScannedTo(g: OpGraph, e: Backends, ids: seq<int>, scans: seq<Scan>, all: seq<Split>, i: nat) {
    |scans| == i + 1 && PassRun(g, e, ids, scans) && Tracks(scans, all)
  }

  ghost predicate PassedAt(g: OpGraph, e: Backends, ids: seq<int>, scans: seq<Scan>, p: nat)
    requires p + 1 < |scans| && p < |g.nodes| && |ids| == |g.tensors|
  {
    ScannedAt(g, e, ids, scans, p) && Takeable(g, e, ids, scans[p], p)
  }

  /** A scan all of whose nodes the pass gets past. */
  ghost predicate PassRun(g: OpGraph, e: Backends, ids: seq<int>, scans: seq<Scan>) {
    && 0 < |scans| <= |g.nodes| + 1 && |ids| == |g.tensors| && scans[0] == Scan(0, FirstId(g, ids, 0), 0, {})
    && forall p :: 0 <= p < |scans| - 1 ==> PassedAt(g, e, ids, scans, p)
  }

  lemma PassIsScan(g: OpGraph, e: Backends, ids: seq<int>, scans: seq<Scan>, n: nat)
    requires PassRun(g, e, ids, scans) && n < |scans|
    ensures ScanRun(g, e, ids, scans) && scans[n] == ScanUpTo(g, e, ids, n)
  {
    forall p | 0 <= p < |scans| - 1 ensures ScannedAt(g, e, ids, scans, p) { assert PassedAt(g, e, ids, scans, p); }
    RunIsScan(g, e, ids, scans, n);
  }

  /** The state when the pass comes to node `i`. */
  ghost predicate Takes(g: OpGraph, e: Backends, ids: seq<int>, r: SplitPlan, nextId: nat, scans: seq<Scan>, i: nat) {
    && Between(g, e, ids, r, nextId, i, i) && i <= |g.nodes| && r.splits[|r.splits| - 1].backend < |e.bufts|
    && ScannedTo(g, e, ids, scans, r.splits, i) && Follows(scans[i], r.splits, r.copies)
    && (|r.splits| > 1 ==> NoneEmpty(r.splits))
  }

  // ---- the pass

  class Splitter {
    const e: Backends
    const ids: seq<int>
    var src: array<seq<nat>>
    var splits: seq<Split>
    var copies: Copies
    var nextId: nat
    ghost var scans: seq<Scan>

    ghost function Plan(): SplitPlan
      reads this, src
    {
      SplitPlan(splits, src[..], copies)
    }

    constructor (g: OpGraph, e: Backends, ids: seq<int>, start: nat)
      requires IdsOk(g, e, ids) && start < |g.nodes| && Computing(g, g.nodes[start]) && ids[g.nodes[start]] >= 0
      requires forall p :: 0 <= p < start ==> !Computing(g, g.nodes[p])
      ensures this.e == e && this.ids == ids && fresh(src)
      ensures Between(g, e, ids, Plan(), nextId, start, start)
      ensures |splits| == 1 && splits[0].backend == ids[g.nodes[start]]
      ensures ScannedTo(g, e, ids, scans, splits, start) && Follows(scans[start], splits, copies)
    {
      this.e, this.ids := e, ids;
      src := new seq<nat>[|g.tensors|](t requires 0 <= t < |g.tensors| => g.tensors[t].src);
      splits := [Split(ids[g.nodes[start]], 0, start, [])];
      copies := map[];
      nextId := |g.tensors|;
      scans := seq(start + 1, _ => Scan(0, ids[g.nodes[start]], 0, {}));
      new;
      FirstIdIs(g, ids, 0, start);
      forall p | 0 <= p < start ensures PassedAt(g, e, ids, scans, p) {}
      assert PassRun(g, e, ids, scans);
      assert StartsThere(scans, splits, 0) && MadeUpTo(scans, splits, 0);
    }

    /** Whether node `i` should start a split of its own although it runs on the same backend: a
        weight would have to be copied, or a copy would not fit. */
    method NeedNewSplit(g: OpGraph, i: nat, ghost s: Scan) returns (r: bool)
      requires i < |g.nodes| && IdsOk(g, e, ids) && Follows(s, splits, copies)
      ensures r <==> exists j :: 0 <= j < |Src(g, i)| && Crowds(g, e, ids, s, Src(g, i)[j])
    {
      var j := 0;
      while j < |Src(g, i)|
        invariant j <= |Src(g, i)| && forall k :: 0 <= k < j ==> !Crowds(g, e, ids, s, Src(g, i)[k])
      {
        var src := Src(g, i)[j];
        var cur := splits[|splits| - 1].backend;
        var buffer := g.tensors[src].buffer;
        if buffer.Some? && buffer.value.weights {
          if ids[src] != cur && !BufferSupported(g, e, ids, src, cur) { return true; }
        }
        if |splits[|splits| - 1].inputs| == MAX_SPLIT_INPUTS {
          if ids[src] != cur && (src, cur) !in copies && !BufferSupported(g, e, ids, src, cur) { return true; }
        }
        j := j + 1;
      }
      r := false;
    }

    /** View nodes ride along in the current split. */
    method PassView(g: OpGraph, i: nat)
      requires Between(g, e, ids, Plan(), nextId, i, i) && i < |g.nodes| && !Computing(g, g.nodes[i])
      modifies this`splits
      ensures Between(g, e, ids, Plan(), nextId, i + 1, i + 1)
      ensures SameCuts(old(splits), splits) && splits[|splits| - 1].inputs == old(splits)[|splits| - 1].inputs
    {
      var last := splits[|splits| - 1];
      ghost var before := Plan();
      splits := splits[|splits| - 1 := last.(end := i + 1)];
      ExtendLast(g, e, ids, before, nextId, i);
    }

    /** Starts a split at node `i`. */
    method OpenSplit(g: OpGraph, i: nat, b: nat)
      requires Between(g, e, ids, Plan(), nextId, i, i) && i < |g.nodes|
      modifies this`splits
      ensures Between(g, e, ids, Plan(), nextId, i, i) && splits == old(splits) + [Split(b, i, i, [])]
    {
      ghost var before := Plan();
      splits := splits + [Split(b, i, i, [])];
      AppendSplit(g, e, ids, before, nextId, i, b);
    }

    /** Takes computing node `i` into the last split, which runs on its backend. */
    method EnterNode(g: OpGraph, i: nat)
      requires Between(g, e, ids, Plan(), nextId, i, i) && i < |g.nodes| && Computing(g, g.nodes[i]) && Distinct(g)
      requires ids[g.nodes[i]] == splits[|splits| - 1].backend
      modifies this`splits
      ensures Within(g, e, ids, Plan(), nextId, i, 0)
      ensures SameCuts(old(splits), splits) && splits[|splits| - 1].inputs == old(splits)[|splits| - 1].inputs
    {
      var last := splits[|splits| - 1];
      ghost var before := Plan();
      splits := splits[|splits| - 1 := last.(end := i + 1)];
      EnterLast(g, e, ids, before, nextId, i);
    }

    /** Rewrites slot `j` of node `i`, whose source has a backend. Stops with false at the assertion that
        the split has room for another input. */
    method RewriteSlot(g: OpGraph, i: nat, j: nat, ghost s: Scan) returns (ok: bool)
      requires i < |g.nodes| && j < |Src(g, i)| && Within(g, e, ids, Plan(), nextId, i, j)
      requires Distinct(g) && Follows(s, splits, copies) && ids[Src(g, i)[j]] != UNASSIGNED
      modifies this`splits, this`copies, this`nextId, src
      ensures ok <==> SlotPasses(g, e, ids, s, Src(g, i)[j])
      ensures ok ==>
          Within(g, e, ids, Plan(), nextId, i, j + 1) && Follows(ScanSlot(g, e, ids, s, Src(g, i)[j]), splits, copies)
      ensures SameCuts(old(splits), splits)
    {
      var needed;
      ok, needed := CopyIfNeeded(g, i, j, s);
      if ok { SetSource(g, i, j, needed); }
    }

    method CopyIfNeeded(g: OpGraph, i: nat, j: nat, ghost s: Scan) returns (ok: bool, needed: bool)
      requires i < |g.nodes| && j < |Src(g, i)| && Within(g, e, ids, Plan(), nextId, i, j) && Follows(s, splits, copies)
      requires ids[Src(g, i)[j]] != UNASSIGNED
      modifies this`splits, this`copies, this`nextId
      ensures ok <==> SlotPasses(g, e, ids, s, Src(g, i)[j])
      ensures SameCuts(old(splits), splits)
      ensures ok ==>
          Within(g, e, ids, Plan(), nextId, i, j) && Follows(ScanSlot(g, e, ids, s, Src(g, i)[j]), splits, copies)
      ensures ok ==> needed == NeedsCopy(g, e, ids, Src(g, i)[j], splits[|splits| - 1].backend)
      ensures ok && needed ==> (Src(g, i)[j], splits[|splits| - 1].backend) in copies
    {
      var t := Src(g, i)[j];
      var b := splits[|splits| - 1].backend;
      ok, needed := true, ids[t] != b && !BufferSupported(g, e, ids, t, b);
      if needed { ok := MakeCopy(g, i, j, s); }
    }

    /** Makes sure that the source in slot `j` has a copy on the backend of the last split. */
    method MakeCopy(g: OpGraph, i: nat, j: nat, ghost s: Scan) returns (ok: bool)
      requires i < |g.nodes| && j < |Src(g, i)| && Within(g, e, ids, Plan(), nextId, i, j) && Follows(s, splits, copies)
      requires NeedsCopy(g, e, ids, Src(g, i)[j], splits[|splits| - 1].backend) && ids[Src(g, i)[j]] != UNASSIGNED
      modifies this`splits, this`copies, this`nextId
      ensures ok <==> SlotPasses(g, e, ids, s, Src(g, i)[j])
      ensures ok ==> Within(g, e, ids, Plan(), nextId, i, j) && (Src(g, i)[j], splits[|splits| - 1].backend) in copies
      ensures ok ==> Follows(ScanSlot(g, e, ids, s, Src(g, i)[j]), splits, copies)
      ensures SameCuts(old(splits), splits)
    {
      RoomIsKnown(g, e, ids, s, splits, copies, Src(g, i)[j]);
      if (Src(g, i)[j], splits[|splits| - 1].backend) in copies { return true; }
      ok := |splits[|splits| - 1].inputs| < MAX_SPLIT_INPUTS;
      if ok { FirstCopy(g, i, j, s); }
    }

    /** The source in slot `j` becomes an input of the last split, which has room for it. */
    method FirstCopy(g: OpGraph, i: nat, j: nat, ghost s: Scan)
      requires i < |g.nodes| && j < |Src(g, i)| && Within(g, e, ids, Plan(), nextId, i, j) && Follows(s, splits, copies)
      requires NeedsCopy(g, e, ids, Src(g, i)[j], splits[|splits| - 1].backend)
      requires (Src(g, i)[j], splits[|splits| - 1].backend) !in copies
      requires |splits[|splits| - 1].inputs| < MAX_SPLIT_INPUTS
      modifies this`splits, this`copies, this`nextId
      ensures Within(g, e, ids, Plan(), nextId, i, j) && (Src(g, i)[j], splits[|splits| - 1].backend) in copies
      ensures Follows(ScanSlot(g, e, ids, s, Src(g, i)[j]), splits, copies) && SameCuts(old(splits), splits)
    {
      FollowsCopy(s, splits, copies, Src(g, i)[j], nextId);
      AddCopy(g, i, j);
    }

    /** Points slot `j` at the copy if one is needed. */
    method SetSource(g: OpGraph, i: nat, j: nat, needed: bool)
      requires i < |g.nodes| && j < |Src(g, i)| && Within(g, e, ids, Plan(), nextId, i, j) && Distinct(g)
      requires needed == NeedsCopy(g, e, ids, Src(g, i)[j], splits[|splits| - 1].backend)
      requires needed ==> (Src(g, i)[j], splits[|splits| - 1].backend) in copies
      modifies src
      ensures Within(g, e, ids, Plan(), nextId, i, j + 1)
    {
      ghost var before := Plan();
      if needed {
        var node := g.nodes[i];
        src[node] := src[node][j := copies[(Src(g, i)[j], splits[|splits| - 1].backend)]];
      }
      assert src[..] == Rewritten(g, e, ids, before, i, j);
      assert Plan() == before.(src := Rewritten(g, e, ids, before, i, j));
      SlotStep(g, e, ids, before, nextId, i, j);
    }

    /** Makes a copy of the source in slot `j` an input of the last split. */
    method AddCopy(g: OpGraph, i: nat, j: nat)
      requires i < |g.nodes| && j < |Src(g, i)| && Within(g, e, ids, Plan(), nextId, i, j)
      requires NeedsCopy(g, e, ids, Src(g, i)[j], splits[|splits| - 1].backend)
      requires (Src(g, i)[j], splits[|splits| - 1].backend) !in copies
      requires |splits[|splits| - 1].inputs| < MAX_SPLIT_INPUTS
      modifies this`splits, this`copies, this`nextId
      ensures Within(g, e, ids, Plan(), nextId, i, j)
      ensures splits == WithInput(old(splits), Src(g, i)[j])
      ensures copies == old(copies)[(Src(g, i)[j], old(splits)[|old(splits)| - 1].backend) := old(nextId)]
    {
      AddInput(g, e, ids, Plan(), nextId, i, j);
      WriteCopy(Src(g, i)[j]);
    }

    method WriteCopy(t: nat)
      requires |splits| > 0 && |splits[|splits| - 1].inputs| < MAX_SPLIT_INPUTS
      modifies this`splits, this`copies, this`nextId
      ensures splits == WithInput(old(splits), t) && nextId == old(nextId) + 1
      ensures copies == old(copies)[(t, old(splits)[|old(splits)| - 1].backend) := old(nextId)]
    {
      var k := |splits| - 1;
      copies := copies[(t, splits[k].backend) := nextId];
      nextId := nextId + 1;
      splits := splits[k := splits[k].(inputs := splits[k].inputs + [t])];
    }

    ghost predicate Running(g: OpGraph, i: nat)
      reads this, src
    {
      Takes(g, e, ids, Plan(), nextId, scans, i)
    }

    /** Node `i`, of whichever kind. */
    method Step(g: OpGraph, i: nat) returns (ok: bool)
      requires Running(g, i) && i < |g.nodes| && Distinct(g)
      modifies this`splits, this`copies, this`nextId, this`scans, src
      ensures if ok then Running(g, i + 1) else !TakesAll(g, e, ids, |g.nodes|)
    {
      if g.tensors[g.nodes[i]].viewOp {
        TakeView(g, i);
        return true;
      }
      PassIsScan(g, e, ids, scans, i);
      if ids[g.nodes[i]] == UNASSIGNED {
        NotTaken(g, e, ids, i);
        return false;
      }
      ok := TakeNode(g, i);
      if !ok { NotTaken(g, e, ids, i); }
    }

    method TakeView(g: OpGraph, i: nat)
      requires Running(g, i) && i < |g.nodes| && !Computing(g, g.nodes[i])
      modifies this`splits, this`scans
      ensures Running(g, i + 1)
    {
      ghost var all, before := splits, scans;
      OthersHoldNodes(all);
      PassView(g, i);
      scans := scans + [scans[i]];
      NodePassed(g, e, ids, Plan(), nextId, before, scans, i, all);
    }

    method TakeNodes(g: OpGraph, start: nat) returns (ok: bool)
      requires Running(g, start) && Distinct(g)
      modifies this`splits, this`copies, this`nextId, this`scans, src
      ensures if ok then Running(g, |g.nodes|) else !TakesAll(g, e, ids, |g.nodes|)
    {
      var i := start;
      while i < |g.nodes|
        invariant i <= |g.nodes| && Running(g, i)
      {
        ok := Step(g, i);
        if !ok { return; }
        i := i + 1;
      }
      ok := true;
    }

    /** A computing node: it starts a split if it must, then its sources are rewritten. */
    method TakeNode(g: OpGraph, i: nat) returns (ok: bool)
      requires Running(g, i) && i < |g.nodes| && Computing(g, g.nodes[i]) && Distinct(g) && 0 <= ids[g.nodes[i]]
      modifies this`splits, this`copies, this`nextId, this`scans, src
      ensures ok <==> NodePasses(g, e, ids, Opened(g, e, ids, old(scans)[i], i), i)
      ensures ok ==> Running(g, i + 1)
    {
      ghost var s := Opened(g, e, ids, scans[i], i);
      SelectSplit(g, i);
      ghost var all := splits;
      ok := JoinSplit(g, i, s);
      if ok {
        ghost var before := scans;
        scans := scans + [ScanSlots(g, e, ids, s, i, |Src(g, i)|)];
        ScanSlotsKeep(g, e, ids, s, i, |Src(g, i)|);
        NodePassed(g, e, ids, Plan(), nextId, before, scans, i, all);
      }
    }

    /** The node joins the last split, and its sources are rewritten. */
    method JoinSplit(g: OpGraph, i: nat, ghost s: Scan) returns (ok: bool)
      requires Between(g, e, ids, Plan(), nextId, i, i) && i < |g.nodes| && Computing(g, g.nodes[i]) && Distinct(g)
      requires ids[g.nodes[i]] == splits[|splits| - 1].backend && Follows(s, splits, copies)
      modifies this`splits, this`copies, this`nextId, src
      ensures |ids| == |g.tensors| && (ok <==> NodePasses(g, e, ids, s, i))
      ensures ok ==> Between(g, e, ids, Plan(), nextId, i + 1, i + 1)
      ensures ok ==> Follows(ScanSlots(g, e, ids, s, i, |Src(g, i)|), splits, copies)
      ensures SameCuts(old(splits), splits)
    {
      ghost var all := splits;
      EnterNode(g, i);
      ghost var now := splits;
      ok := RewriteNode(g, i, s);
      CutsStay(all, now, splits);
    }

    /** Afterwards the last split is one for node `i`. */
    method SelectSplit(g: OpGraph, i: nat)
      requires Running(g, i) && i < |g.nodes| && Computing(g, g.nodes[i]) && 0 <= ids[g.nodes[i]]
      modifies this`splits
      ensures Between(g, e, ids, Plan(), nextId, i, i) && splits[|splits| - 1].backend == ids[g.nodes[i]] < |e.bufts|
      ensures ScannedTo(g, e, ids, scans, splits, i) && Follows(Opened(g, e, ids, scans[i], i), splits, copies)
      ensures NoneEmpty(splits[..|splits| - 1])
    {
      var id := ids[g.nodes[i]];
      var split := id != splits[|splits| - 1].backend;
      if !split && |splits[|splits| - 1].inputs| > 0 { split := NeedNewSplit(g, i, scans[i]); }
      assert split <==> CutsAt(g, e, ids, scans[i], i);
      if split {
        FirstDoesNotCut(g, e, ids, scans, i);
        TracksOpen(g, e, ids, scans, splits, copies, nextId, i, id);
        OpenSplit(g, i, id);
      }
    }

    method RewriteNode(g: OpGraph, i: nat, ghost s: Scan) returns (ok: bool)
      requires i < |g.nodes| && Within(g, e, ids, Plan(), nextId, i, 0) && Distinct(g) && Follows(s, splits, copies)
      modifies this`splits, this`copies, this`nextId, src
      ensures |ids| == |g.tensors| && (ok <==> NodePasses(g, e, ids, s, i))
      ensures ok ==>
          Between(g, e, ids, Plan(), nextId, i + 1, i + 1)
          && Follows(ScanSlots(g, e, ids, s, i, |Src(g, i)|), splits, copies)
      ensures SameCuts(old(splits), splits)
    {
      ghost var trace;
      ok, trace := RewriteSlots(g, i, s);
      TracePasses(g, e, ids, trace, i, |trace| - 1);
      if ok { LeaveNode(g, i); }
    }

    method RewriteSlots(g: OpGraph, i: nat, ghost s: Scan) returns (ok: bool, ghost trace: seq<Scan>)
      requires i < |g.nodes| && Within(g, e, ids, Plan(), nextId, i, 0) && Distinct(g) && Follows(s, splits, copies)
      modifies this`splits, this`copies, this`nextId, src
      ensures SameCuts(old(splits), splits)
      ensures |trace| > 0 && ScanTrace(g, e, ids, trace, i, |trace| - 1) && trace[0] == s
      ensures ok ==> |trace| - 1 == |Src(g, i)| && Within(g, e, ids, Plan(), nextId, i, |Src(g, i)|)
      ensures ok ==> Follows(trace[|Src(g, i)|], splits, copies)
      ensures !ok ==> |trace| - 1 < |Src(g, i)| && !SlotPasses(g, e, ids, trace[|trace| - 1], Src(g, i)[|trace| - 1])
    {
      ghost var all := splits;
      trace := [s];
      var j := 0;
      while j < |Src(g, i)|
        invariant j <= |Src(g, i)| && Within(g, e, ids, Plan(), nextId, i, j) && SameCuts(all, splits)
        invariant ScanTrace(g, e, ids, trace, i, j) && trace[0] == s && Follows(trace[j], splits, copies)
      {
        ghost var now := splits;
        ok := PassSlot(g, i, j, trace[j]);
        CutsStay(all, now, splits);
        if !ok { return; }
        trace := LongerTrace(g, e, ids, trace, i, j);
        j := j + 1;
      }
      assert j == |Src(g, i)|;
      ok := true;
    }

    /** Slot `j` of node `i`. Stops with false at the assertion that the source has a backend, too. */
    method PassSlot(g: OpGraph, i: nat, j: nat, ghost s: Scan) returns (ok: bool)
      requires i < |g.nodes| && j < |Src(g, i)| && Within(g, e, ids, Plan(), nextId, i, j) && Distinct(g)
      requires Follows(s, splits, copies)
      modifies this`splits, this`copies, this`nextId, src
      ensures ok <==> SlotPasses(g, e, ids, s, Src(g, i)[j])
      ensures ok ==>
          Within(g, e, ids, Plan(), nextId, i, j + 1) && Follows(ScanSlot(g, e, ids, s, Src(g, i)[j]), splits, copies)
      ensures SameCuts(old(splits), splits)
    {
      if ids[Src(g, i)[j]] == UNASSIGNED { return false; }
      ok := RewriteSlot(g, i, j, s);
    }

    /** All slots of node `i` are done. */
    lemma LeaveNode(g: OpGraph, i: nat)
      requires i < |g.nodes| && Within(g, e, ids, Plan(), nextId, i, |Src(g, i)|)
      ensures Between(g, e, ids, Plan(), nextId, i + 1, i + 1)
    {
      NodeFinished(g, e, ids, Plan(), nextId, i);
    }
  }

  /** All sources of node `i` have a backend. */
  ghost predicate HasIds(g: OpGraph, ids: seq<int>, i: nat)
    requires i < |g.nodes| && |ids| == |g.tensors|
  {
    forall j :: 0 <= j < |Src(g, i)| ==> ids[Src(g, i)[j]] != UNASSIGNED
  }

  lemma PassedHaveIds(g: OpGraph, e: Backends, ids: seq<int>, s: Scan, i: nat)
    requires i < |g.nodes| && |ids| == |g.tensors| && NodePasses(g, e, ids, s, i)
    ensures HasIds(g, ids, i)
  {
    forall j | 0 <= j < |Src(g, i)| ensures ids[Src(g, i)[j]] != UNASSIGNED {
      assert SlotPasses(g, e, ids, ScanSlots(g, e, ids, s, i, j), Src(g, i)[j]);
    }
  }

  /** All sources of the computing nodes below `n` have a backend. */
  ghost predicate AllHaveIds(g: OpGraph, ids: seq<int>, n: nat) {
    n <= |g.nodes| && |ids| == |g.tensors| && forall i {:trigger HasIds(g, ids, i)} ::
        0 <= i < n && Computing(g, g.nodes[i]) ==> HasIds(g, ids, i)
  }

  method FirstComputing(g: OpGraph) returns (i: nat)
    requires exists i :: 0 <= i < |g.nodes| && Computing(g, g.nodes[i])
    ensures i < |g.nodes| && Computing(g, g.nodes[i])
    ensures forall p :: 0 <= p < i ==> !Computing(g, g.nodes[p])
  {
    i := 0;
    while g.tensors[g.nodes[i]].viewOp
      invariant i < |g.nodes| && forall p :: 0 <= p < i ==> !Computing(g, g.nodes[p])
      decreases |g.nodes| - i
    {
      i := i + 1;
    }
  }

  /** The pass as a whole. It stops at an assertion exactly if a computing node or one of its sources has
      no backend, or a copy has to go into a split that is full. */
  method SplitGraph(g: OpGraph, e: Backends, ids: seq<int>) returns (ok: bool, r: SplitPlan)
    requires IdsOk(g, e, ids) && Distinct(g)
    requires exists i :: 0 <= i < |g.nodes| && Computing(g, g.nodes[i])
    ensures ok <==> TakesAll(g, e, ids, |g.nodes|)
    ensures ok ==> WellSplit(g, e, ids, r)
  {
    var i := FirstComputing(g);
    if ids[g.nodes[i]] == UNASSIGNED {
      NotTaken(g, e, ids, i);
      return false, SplitPlan([], [], map[]);
    }
    var s := new Splitter(g, e, ids, i);
    ok := s.TakeNodes(g, i);
    r := SplitPlan(s.splits, s.src[..], s.copies);
    if ok { BetweenIsWellSplit(g, e, ids, r, s.nextId, s.scans); }
  }

  /** Node `i` has joined the last split. */
  lemma NodePassed(g: OpGraph, e: Backends, ids: seq<int>, r: SplitPlan, nextId: nat, before: seq<Scan>,
                   scans: seq<Scan>, i: nat, all: seq<Split>)
    requires i < |g.nodes| && |before| > i && |ids| == |g.tensors| && Takeable(g, e, ids, before[i], i)
    requires Between(g, e, ids, r, nextId, i + 1, i + 1)
    requires ScannedTo(g, e, ids, before, all, i) && SameCuts(all, r.splits) && all[|all| - 1].end == i
    requires scans == before + [ScanNode(g, e, ids, before[i], i)] && scans[i + 1].start == all[|all| - 1].start
    requires all[|all| - 1].backend < |e.bufts| && Follows(scans[i + 1], r.splits, r.copies)
    requires all[|all| - 1].start <= i && NoneEmpty(all[..|all| - 1])
    ensures Takes(g, e, ids, r, nextId, scans, i + 1)
  {
    forall p | 0 <= p < |scans| - 1 ensures PassedAt(g, e, ids, scans, p) {
      if p < i { assert PassedAt(g, e, ids, before, p); }
    }
    TracksGrow(before, scans, all, r.splits, i);
    forall k | 0 <= k < |all| ensures r.splits[k].start < r.splits[k].end {
      if k < |all| - 1 { assert r.splits[..|all| - 1][k] == all[..|all| - 1][k]; }
    }
  }

  lemma BetweenIsWellSplit(g: OpGraph, e: Backends, ids: seq<int>, r: SplitPlan, nextId: nat, scans: seq<Scan>)
    requires Between(g, e, ids, r, nextId, |g.nodes|, |g.nodes|)
    requires ScannedTo(g, e, ids, scans, r.splits, |g.nodes|) && (|r.splits| > 1 ==> NoneEmpty(r.splits))
    ensures WellSplit(g, e, ids, r) && TakesAll(g, e, ids, |g.nodes|)
  {
    PassIsScan(g, e, ids, scans, 0);
    forall i | 0 <= i < |g.nodes|
      ensures Takeable(g, e, ids, ScanUpTo(g, e, ids, i), i) && (Computing(g, g.nodes[i]) ==> HasIds(g, ids, i))
    {
      assert PassedAt(g, e, ids, scans, i);
      PassIsScan(g, e, ids, scans, i);
      if Computing(g, g.nodes[i]) { PassedHaveIds(g, e, ids, Opened(g, e, ids, scans[i], i), i); }
    }
  }

  /** The last split may have grown; the cuts are the same. */
  ghost predicate SameCuts(all: seq<Split>, all': seq<Split>) {
    && |all'| == |all| > 0 && all'[..|all| - 1] == all[..|all| - 1]
    && all'[|all| - 1].backend == all[|all| - 1].backend && all'[|all| - 1].start == all[|all| - 1].start
  }

  lemma RoomIsKnown(g: OpGraph, e: Backends, ids: seq<int>, s: Scan, all: seq<Split>, copies: Copies, t: nat)
    requires t < |g.tensors| == |ids| && ids[t] != UNASSIGNED && Follows(s, all, copies)
    requires NeedsCopy(g, e, ids, t, all[|all| - 1].backend)
    ensures SlotPasses(g, e, ids, s, t) <==>
            (t, all[|all| - 1].backend) in copies || |all[|all| - 1].inputs| < MAX_SPLIT_INPUTS
    ensures (t, all[|all| - 1].backend) in copies ==> ScanSlot(g, e, ids, s, t) == s
  {
  }

  lemma FollowsCopy(s: Scan, all: seq<Split>, copies: Copies, t: nat, c: nat)
    requires Follows(s, all, copies) && |all[|all| - 1].inputs| < MAX_SPLIT_INPUTS
    ensures var b := all[|all| - 1].backend;
            Follows(s.(inputs := s.inputs + 1, made := s.made + {(t, b)}), WithInput(all, t), copies[(t, b) := c])
    ensures SameCuts(all, WithInput(all, t))
  {
  }

  lemma CutsStay(a: seq<Split>, b: seq<Split>, c: seq<Split>)
    requires SameCuts(a, b) && SameCuts(b, c)
    ensures SameCuts(a, c)
  {
  }

  lemma {:induction false} FirstIdIs(g: OpGraph, ids: seq<int>, i: nat, n: nat)
    requires i <= n < |g.nodes| && |ids| == |g.tensors| && Computing(g, g.nodes[n]) && ids[g.nodes[n]] >= 0
    requires forall p :: i <= p < n ==> !Computing(g, g.nodes[p])
    ensures FirstId(g, ids, i) == ids[g.nodes[n]]
    decreases n - i
  {
    if i < n { FirstIdIs(g, ids, i + 1, n); }
  }

  lemma OthersHoldNodes(all: seq<Split>)
    requires |all| > 0 && (|all| > 1 ==> NoneEmpty(all))
    ensures NoneEmpty(all[..|all| - 1])
  {
  }

  /** No split is opened at the very first node. */
  lemma FirstDoesNotCut(g: OpGraph, e: Backends, ids: seq<int>, scans: seq<Scan>, i: nat)
    requires PassRun(g, e, ids, scans) && |scans| == i + 1 && i < |g.nodes| && CutsAt(g, e, ids, scans[i], i)
    ensures i > 0
  {
  }

  lemma {:induction false} ScanSlotsKeep(g: OpGraph, e: Backends, ids: seq<int>, s: Scan, i: nat, j: nat)
    requires i < |g.nodes| && j <= |Src(g, i)| && |ids| == |g.tensors|
    ensures ScanSlots(g, e, ids, s, i, j).start == s.start && ScanSlots(g, e, ids, s, i, j).backend == s.backend
  {
    if j > 0 { ScanSlotsKeep(g, e, ids, s, i, j - 1); }
  }

  /** Node `i` joins the last split. */
  lemma TracksGrow(scans: seq<Scan>, scans': seq<Scan>, all: seq<Split>, all': seq<Split>, i: nat)
    requires Tracks(scans, all) && SameCuts(all, all') && |scans| == i + 1 && |scans'| == i + 2 && scans <= scans'
    requires all[|all| - 1].end == i && all'[|all| - 1].end == i + 1
    requires scans'[i + 1].start == all[|all| - 1].start && scans'[i + 1].backend == all[|all| - 1].backend
    ensures Tracks(scans', all')
  {
    forall k | 0 <= k < |all'| ensures StartsThere(scans', all', k) && MadeUpTo(scans', all', k) {
      assert StartsThere(scans, all, k) && MadeUpTo(scans, all, k);
      if k < |all| - 1 { assert all'[k] == all'[..|all| - 1][k] == all[k]; }
      forall t: nat, b: nat ensures MadeBy(all', t, b, k) <==> MadeBy(all, t, b, k) {
        forall l | 0 <= l < k ensures all'[l] == all[l] { assert all'[l] == all'[..|all| - 1][l]; }
      }
    }
  }

  /** A new split opens at node `i`. */
  lemma TracksOpen(g: OpGraph, e: Backends, ids: seq<int>, scans: seq<Scan>, all: seq<Split>, copies: Copies,
                   nextId: nat, i: nat, b: nat)
    requires Tracks(scans, all) && |scans| == i + 1 && Follows(scans[i], all, copies)
    requires CopiesOk(g, e, ids, all, copies, nextId)
    ensures Tracks(scans, all + [Split(b, i, i, [])])
  {
    var all' := all + [Split(b, i, i, [])];
    forall k | 0 <= k < |all'| ensures StartsThere(scans, all', k) && MadeUpTo(scans, all', k) {
      if k < |all| {
        assert StartsThere(scans, all, k) && MadeUpTo(scans, all, k);
        forall t: nat, c: nat ensures MadeBy(all', t, c, k) <==> MadeBy(all, t, c, k) { SameBelow(all, all', t, c, k); }
      } else {
        forall t: nat, c: nat ensures (t, c) in copies <==> MadeBy(all', t, c, k) {
          SameBelow(all, all', t, c, k);
          MadeIsInput(g, e, ids, all, copies, nextId, t, c);
        }
      }
    }
  }

  lemma SameBelow(all: seq<Split>, all': seq<Split>, t: nat, b: nat, k: nat)
    requires k <= |all| <= |all'| && forall l :: 0 <= l < k ==> all'[l] == all[l]
    ensures MadeBy(all', t, b, k) <==> MadeBy(all, t, b, k)
  {
  }

  lemma MadeIsInput(g: OpGraph, e: Backends, ids: seq<int>, all: seq<Split>, copies: Copies, nextId: nat, t: nat,
                    b: nat)
    requires CopiesOk(g, e, ids, all, copies, nextId)
    ensures (t, b) in copies <==> MadeBy(all, t, b, |all|)
  {
    if MadeBy(all, t, b, |all|) {
      var k :| 0 <= k < |all| && all[k].backend == b && t in all[k].inputs;
      var x :| 0 <= x < |all[k].inputs| && all[k].inputs[x] == t;
      assert InputOk(g, e, ids, all[k], copies, x);
    }
  }

  ghost predicate FirstMadeInTime(g: OpGraph, e: Backends, ids: seq<int>, all: seq<Split>, p: nat, m: nat)
    requires |all| > 0 && p < |g.nodes| && |ids| == |g.tensors|
  {
    var b := all[|all| - 1].backend;
    forall j ::
        0 <= j < m && j < |Src(g, p)| && NeedsCopy(g, e, ids, Src(g, p)[j], b) ==> MadeBy(all, Src(g, p)[j], b, |all|)
  }

  // ---- what the edits of the split list keep

  ghost predicate Extends(s: Split, s': Split) {
    s'.backend == s.backend && s'.start == s.start && s.end <= s'.end
  }

  /** `all'` has the same splits with the same inputs, except that the last one may end later and a
      new empty one may follow. */
  ghost predicate SameInputs(all: seq<Split>, all': seq<Split>) {
    && |all| <= |all'|
    && (forall k :: 0 <= k < |all| ==> Extends(all[k], all'[k]) && all'[k].inputs == all[k].inputs)
    && (forall k :: |all| <= k < |all'| ==> all'[k].inputs == [])
  }

  lemma MadeByKept(all: seq<Split>, all': seq<Split>, t: nat, b: nat, n: nat)
    requires SameInputs(all, all') && MadeBy(all, t, b, n)
    ensures MadeBy(all', t, b, n)
  {
    var k :| 0 <= k < n && k < |all| && all[k].backend == b && t in all[k].inputs;
    assert all'[k].backend == b && t in all'[k].inputs;
  }

  lemma CopiesKept(g: OpGraph, e: Backends, ids: seq<int>, all: seq<Split>, all': seq<Split>, copies: Copies,
                   nextId: nat)
    requires CopiesOk(g, e, ids, all, copies, nextId) && SameInputs(all, all')
    ensures CopiesOk(g, e, ids, all', copies, nextId)
  {
    forall k, x | 0 <= k < |all'| && 0 <= x < |all'[k].inputs| ensures InputOk(g, e, ids, all'[k], copies, x) {
      assert InputOk(g, e, ids, all[k], copies, x);
      WantedKept(g, all[k], all'[k], all[k].inputs[x]);
    }
    forall c | c in copies ensures MadeBy(all', c.0, c.1, |all'|) {
      MadeByKept(all, all', c.0, c.1, |all|);
      MadeByMore(all', c.0, c.1, |all|, |all'|);
    }
  }

  lemma MadeByMore(all: seq<Split>, t: nat, b: nat, n: nat, m: nat)
    requires MadeBy(all, t, b, n) && n <= m
    ensures MadeBy(all, t, b, m)
  {
    var k :| 0 <= k < n && k < |all| && all[k].backend == b && t in all[k].inputs;
  }

  lemma WantedKept(g: OpGraph, s: Split, s': Split, t: nat)
    requires Wanted(g, s, t) && s'.start == s.start && s.end <= s'.end
    ensures Wanted(g, s', t)
  {
    var p, j :| s.start <= p < s.end && p < |g.nodes| && Computing(g, g.nodes[p]) && 0 <= j < |Src(g, p)|
        && Src(g, p)[j] == t;
  }

  lemma NodesKept(g: OpGraph, e: Backends, ids: seq<int>, all: seq<Split>, all': seq<Split>, src: seq<seq<nat>>,
                  copies: Copies, n: nat, n': nat, i: nat)
    requires Chained(g, ids, all, n) && Chained(g, ids, all', n') && |src| == |g.tensors| && i <= n
    requires NodesDone(g, e, ids, all, src, copies, n, i) && SameInputs(all, all')
    requires forall k :: 0 <= k < |all| - 1 ==> all'[k].end == all[k].end
    requires forall k :: |all| <= k < |all'| ==> i <= all'[k].start
    ensures NodesDone(g, e, ids, all', src, copies, n', i)
  {
    forall k, p | 0 <= k < |all'| && all'[k].start <= p < all'[k].end && p < i && Computing(g, g.nodes[p])
      ensures SlotsDone(g, e, ids, src, copies, p, all'[k].backend, |Src(g, p)|) && MadeInTime(g, e, ids, all', k, p)
    {
      assert k < |all| && p < all[k].end;
      assert SplitDone(g, e, ids, src, copies, all[k], i);
      assert MadeInTime(g, e, ids, all, k, p);
      forall j | 0 <= j < |Src(g, p)| && NeedsCopy(g, e, ids, Src(g, p)[j], all[k].backend)
        ensures MadeBy(all', Src(g, p)[j], all[k].backend, k + 1)
      {
        MadeByKept(all, all', Src(g, p)[j], all[k].backend, k + 1);
      }
    }
  }

  lemma ExtendLast(g: OpGraph, e: Backends, ids: seq<int>, r: SplitPlan, nextId: nat, i: nat)
    requires i < |g.nodes| && !Computing(g, g.nodes[i]) && Between(g, e, ids, r, nextId, i, i)
    ensures Between(g, e, ids, r.(splits := LastUpTo(r.splits, i + 1)), nextId, i + 1, i + 1)
  {
    StretchLast(g, e, ids, r, nextId, i);
    SkippedNode(g, e, ids, LastUpTo(r.splits, i + 1), r.src, r.copies, i);
  }

  /** The last split takes one more node, which is not rewritten yet. */
  lemma StretchLast(g: OpGraph, e: Backends, ids: seq<int>, r: SplitPlan, nextId: nat, i: nat)
    requires i < |g.nodes| && Between(g, e, ids, r, nextId, i, i)
    requires Computing(g, g.nodes[i]) ==> ids[g.nodes[i]] == r.splits[|r.splits| - 1].backend
    ensures Between(g, e, ids, r.(splits := LastUpTo(r.splits, i + 1)), nextId, i + 1, i)
  {
    var all, all' := r.splits, LastUpTo(r.splits, i + 1);
    assert SameInputs(all, all');
    StretchChain(g, ids, all, i);
    CopiesKept(g, e, ids, all, all', r.copies, nextId);
    NodesKept(g, e, ids, all, all', r.src, r.copies, i, i + 1, i);
  }

  lemma StretchChain(g: OpGraph, ids: seq<int>, all: seq<Split>, i: nat)
    requires i < |g.nodes| && Chained(g, ids, all, i)
    requires Computing(g, g.nodes[i]) ==> ids[g.nodes[i]] == all[|all| - 1].backend
    ensures Chained(g, ids, LastUpTo(all, i + 1), i + 1)
  {
    assert OwnBackend(g, ids, all[|all| - 1]);
  }

  function LastUpTo(all: seq<Split>, n: nat): seq<Split>
    requires |all| > 0
  {
    all[|all| - 1 := all[|all| - 1].(end := n)]
  }

  lemma SkippedNode(g: OpGraph, e: Backends, ids: seq<int>, all: seq<Split>, src: seq<seq<nat>>, copies: Copies, i: nat)
    requires i < |g.nodes| && !Computing(g, g.nodes[i]) && |src| == |g.tensors|
    requires Chained(g, ids, all, i + 1) && NodesDone(g, e, ids, all, src, copies, i + 1, i)
    ensures NodesDone(g, e, ids, all, src, copies, i + 1, i + 1)
  {
    forall k | 0 <= k < |all|
      ensures SplitDone(g, e, ids, src, copies, all[k], i + 1)
      ensures forall p ::
          all[k].start <= p < all[k].end && p < i + 1 && Computing(g, g.nodes[p]) ==> MadeInTime(g, e, ids, all, k, p)
    {
      assert SplitDone(g, e, ids, src, copies, all[k], i);
    }
  }

  lemma AppendSplit(g: OpGraph, e: Backends, ids: seq<int>, r: SplitPlan, nextId: nat, i: nat, b: nat)
    requires i < |g.nodes| && Between(g, e, ids, r, nextId, i, i)
    ensures Between(g, e, ids, r.(splits := r.splits + [Split(b, i, i, [])]), nextId, i, i)
  {
    var all, all' := r.splits, r.splits + [Split(b, i, i, [])];
    assert SameInputs(all, all');
    CopiesKept(g, e, ids, all, all', r.copies, nextId);
    NodesKept(g, e, ids, all, all', r.src, r.copies, i, i, i);
  }

  lemma EnterLast(g: OpGraph, e: Backends, ids: seq<int>, r: SplitPlan, nextId: nat, i: nat)
    requires i < |g.nodes| && Computing(g, g.nodes[i]) && Distinct(g) && Between(g, e, ids, r, nextId, i, i)
    requires ids[g.nodes[i]] == r.splits[|r.splits| - 1].backend
    ensures Within(g, e, ids, r.(splits := LastUpTo(r.splits, i + 1)), nextId, i, 0)
  {
    StretchLast(g, e, ids, r, nextId, i);
    assert r.src[g.nodes[i]] == Src(g, i);
  }

  // ---- what adding an input keeps

  ghost predicate MoreInputs(all: seq<Split>, all': seq<Split>) {
    |all'| == |all| && forall k :: 0 <= k < |all| ==>
      all'[k].backend == all[k].backend && all'[k].start == all[k].start && all'[k].end == all[k].end
          && all[k].inputs <= all'[k].inputs
  }

  ghost predicate MoreCopies(copies: Copies, copies': Copies) {
    forall c :: c in copies ==> c in copies' && copies'[c] == copies[c]
  }

  lemma MadeByInMore(all: seq<Split>, all': seq<Split>, t: nat, b: nat, n: nat)
    requires MoreInputs(all, all') && MadeBy(all, t, b, n)
    ensures MadeBy(all', t, b, n)
  {
    var k :| 0 <= k < n && k < |all| && all[k].backend == b && t in all[k].inputs;
    var x :| 0 <= x < |all[k].inputs| && all[k].inputs[x] == t;
    assert all'[k].inputs[x] == t;
  }

  lemma NodesKeptInMore(g: OpGraph, e: Backends, ids: seq<int>, all: seq<Split>, all': seq<Split>, src: seq<seq<nat>>,
                        copies: Copies, copies': Copies, n: nat, i: nat)
    requires |all| > 0 && |all[|all| - 1].inputs| < MAX_SPLIT_INPUTS
    requires Chained(g, ids, all, n) && Chained(g, ids, all', n) && |src| == |g.tensors| && i <= n
    requires NodesDone(g, e, ids, all, src, copies, n, i) && MoreInputs(all, all') && MoreCopies(copies, copies')
    ensures NodesDone(g, e, ids, all', src, copies', n, i)
  {
    forall k, p | 0 <= k < |all'| && all'[k].start <= p < all'[k].end && p < i && Computing(g, g.nodes[p])
      ensures SlotsDone(g, e, ids, src, copies', p, all'[k].backend, |Src(g, p)|) && MadeInTime(g, e, ids, all', k, p)
    {
      assert SplitDone(g, e, ids, src, copies, all[k], i);
      assert MadeInTime(g, e, ids, all, k, p);
      forall j | 0 <= j < |Src(g, p)| && NeedsCopy(g, e, ids, Src(g, p)[j], all[k].backend)
        ensures MadeBy(all', Src(g, p)[j], all[k].backend, k + 1)
      {
        MadeByInMore(all, all', Src(g, p)[j], all[k].backend, k + 1);
      }
    }
  }

  function WithInput(all: seq<Split>, t: nat): seq<Split>
    requires |all| > 0 && |all[|all| - 1].inputs| < MAX_SPLIT_INPUTS
  {
    all[|all| - 1 := all[|all| - 1].(inputs := all[|all| - 1].inputs + [t])]
  }

  lemma AddInput(g: OpGraph, e: Backends, ids: seq<int>, r: SplitPlan, nextId: nat, i: nat, j: nat)
    requires |r.splits| > 0 && |r.splits[|r.splits| - 1].inputs| < MAX_SPLIT_INPUTS
    requires Within(g, e, ids, r, nextId, i, j) && j < |Src(g, i)|
    requires NeedsCopy(g, e, ids, Src(g, i)[j], r.splits[|r.splits| - 1].backend)
    requires (Src(g, i)[j], r.splits[|r.splits| - 1].backend) !in r.copies
    ensures var t, b := Src(g, i)[j], r.splits[|r.splits| - 1].backend;
            Within(g, e, ids, SplitPlan(WithInput(r.splits, t), r.src, r.copies[(t, b) := nextId]), nextId + 1, i, j)
  {
    var t, all := Src(g, i)[j], r.splits;
    var b := all[|all| - 1].backend;
    var all', copies' := WithInput(all, t), r.copies[(t, b) := nextId];
    assert MoreInputs(all, all') && MoreCopies(r.copies, copies');
    InputKeepsChain(g, ids, all, i + 1, t);
    NodesKeptInMore(g, e, ids, all, all', r.src, r.copies, copies', i + 1, i);
    InputKeepsCopies(g, e, ids, all, r.copies, nextId, t, i, j);
    InputKeepsFirst(g, e, ids, all, i, j, t);
  }

  lemma InputKeepsChain(g: OpGraph, ids: seq<int>, all: seq<Split>, n: nat, t: nat)
    requires |all| > 0 && |all[|all| - 1].inputs| < MAX_SPLIT_INPUTS
    requires Chained(g, ids, all, n)
    ensures Chained(g, ids, WithInput(all, t), n)
  {
    assert OwnBackend(g, ids, all[|all| - 1]);
  }

  lemma InputKeepsFirst(g: OpGraph, e: Backends, ids: seq<int>, all: seq<Split>, i: nat, j: nat, t: nat)
    requires |all| > 0 && |all[|all| - 1].inputs| < MAX_SPLIT_INPUTS
    requires |all| > 0 && i < |g.nodes| && |ids| == |g.tensors| && FirstMadeInTime(g, e, ids, all, i, j)
    ensures FirstMadeInTime(g, e, ids, WithInput(all, t), i, j)
  {
    var b := all[|all| - 1].backend;
    forall m | 0 <= m < j && m < |Src(g, i)| && NeedsCopy(g, e, ids, Src(g, i)[m], b)
      ensures MadeBy(WithInput(all, t), Src(g, i)[m], b, |all|)
    {
      MadeByInMore(all, WithInput(all, t), Src(g, i)[m], b, |all|);
    }
  }

  lemma InputKeepsCopies(g: OpGraph, e: Backends, ids: seq<int>, all: seq<Split>, copies: Copies, nextId: nat, t: nat,
                         p: nat, j: nat)
    requires |all| > 0 && |all[|all| - 1].inputs| < MAX_SPLIT_INPUTS
    requires |all| > 0 && CopiesOk(g, e, ids, all, copies, nextId) && t < |g.tensors|
    requires all[|all| - 1].start <= p < all[|all| - 1].end && p < |g.nodes| && Computing(g, g.nodes[p])
    requires j < |Src(g, p)| && Src(g, p)[j] == t
    requires NeedsCopy(g, e, ids, t, all[|all| - 1].backend) && (t, all[|all| - 1].backend) !in copies
    ensures CopiesOk(g, e, ids, WithInput(all, t), copies[(t, all[|all| - 1].backend) := nextId], nextId + 1)
  {
    var b := all[|all| - 1].backend;
    InputsStayOk(g, e, ids, all, copies, nextId, t, p, j, WithInput(all, t), copies[(t, b) := nextId]);
    InputsStayDistinct(g, e, ids, all, copies, nextId, t);
    forall c | c in copies[(t, b) := nextId] ensures MadeBy(WithInput(all, t), c.0, c.1, |all|) {
      if c == (t, b) { assert WithInput(all, t)[|all| - 1].inputs[|all[|all| - 1].inputs|] == t; }
      else { MadeByInMore(all, WithInput(all, t), c.0, c.1, |all|); }
    }
  }

  lemma InputsStayOk(g: OpGraph, e: Backends, ids: seq<int>, all: seq<Split>, copies: Copies, nextId: nat, t: nat,
                     p: nat, j: nat,
                     all': seq<Split>, copies': Copies)
    requires |all| > 0 && |all[|all| - 1].inputs| < MAX_SPLIT_INPUTS
    requires |all| > 0 && all' == WithInput(all, t) && copies' == copies[(t, all[|all| - 1].backend) := nextId]
    requires CopiesOk(g, e, ids, all, copies, nextId) && t < |g.tensors|
    requires all[|all| - 1].start <= p < all[|all| - 1].end && p < |g.nodes| && Computing(g, g.nodes[p])
    requires j < |Src(g, p)| && Src(g, p)[j] == t
    requires NeedsCopy(g, e, ids, t, all[|all| - 1].backend)
    ensures forall l, x :: 0 <= l < |all'| && 0 <= x < |all'[l].inputs| ==> InputOk(g, e, ids, all'[l], copies', x)
  {
    assert Wanted(g, all'[|all| - 1], t);
    forall l, x | 0 <= l < |all'| && 0 <= x < |all'[l].inputs| ensures InputOk(g, e, ids, all'[l], copies', x) {
      if l < |all| - 1 || x < |all[l].inputs| {
        assert InputOk(g, e, ids, all[l], copies, x);
        WantedKept(g, all[l], all'[l], all[l].inputs[x]);
      }
    }
  }

  lemma InputsStayDistinct(g: OpGraph, e: Backends, ids: seq<int>, all: seq<Split>, copies: Copies, nextId: nat, t: nat)
    requires |all| > 0 && |all[|all| - 1].inputs| < MAX_SPLIT_INPUTS
    requires |all| > 0 && CopiesOk(g, e, ids, all, copies, nextId) && (t, all[|all| - 1].backend) !in copies
    ensures forall l, x, m, y ::
        0 <= l < |all| && 0 <= x < |WithInput(all, t)[l].inputs| && 0 <= m < |all|
        && 0 <= y < |WithInput(all, t)[m].inputs| ==>
              WithInput(all, t)[l].inputs[x] != WithInput(all, t)[m].inputs[y]
                  || WithInput(all, t)[l].backend != WithInput(all, t)[m].backend || (l == m && x == y)
  {
    var all', last := WithInput(all, t), |all| - 1;
    forall l, x | 0 <= l < |all| && 0 <= x < |all[l].inputs|
      ensures all[l].inputs[x] != t || all[l].backend != all[last].backend
    {
      assert InputOk(g, e, ids, all[l], copies, x);
    }
    forall l, x, m, y | 0 <= l < |all'| && 0 <= x < |all'[l].inputs| && 0 <= m < |all'| && 0 <= y < |all'[m].inputs|
      ensures all'[l].inputs[x] != all'[m].inputs[y] || all'[l].backend != all'[m].backend || (l == m && x == y)
    {
      var lx, my := l < last || x < |all[l].inputs|, m < last || y < |all[m].inputs|;
      if lx && my { assert all'[l].inputs[x] == all[l].inputs[x] && all'[m].inputs[y] == all[m].inputs[y]; }
    }
  }

  // ---- what passing a slot keeps

  function Rewritten(g: OpGraph, e: Backends, ids: seq<int>, r: SplitPlan, i: nat, j: nat): seq<seq<nat>>
    requires i < |g.nodes| && j < |Src(g, i)| && |r.splits| > 0 && |ids| == |r.src| == |g.tensors|
    requires |r.src[g.nodes[i]]| == |Src(g, i)|
    requires NeedsCopy(g, e, ids, Src(g, i)[j], r.splits[|r.splits| - 1].backend) ==>
        (Src(g, i)[j], r.splits[|r.splits| - 1].backend) in r.copies
  {
    var t, b := Src(g, i)[j], r.splits[|r.splits| - 1].backend;
    if NeedsCopy(g, e, ids, t, b) then r.src[g.nodes[i] := r.src[g.nodes[i]][j := r.copies[(t, b)]]] else r.src
  }

  lemma SlotStep(g: OpGraph, e: Backends, ids: seq<int>, r: SplitPlan, nextId: nat, i: nat, j: nat)
    requires Within(g, e, ids, r, nextId, i, j) && j < |Src(g, i)| && Distinct(g)
    requires NeedsCopy(g, e, ids, Src(g, i)[j], r.splits[|r.splits| - 1].backend) ==>
        (Src(g, i)[j], r.splits[|r.splits| - 1].backend) in r.copies
    ensures Within(g, e, ids, r.(src := Rewritten(g, e, ids, r, i, j)), nextId, i, j + 1)
  {
    OthersKept(g, e, ids, r, nextId, i, Rewritten(g, e, ids, r, i, j));
    SlotsStep(g, e, ids, r, i, j);
    FirstStep(g, e, ids, r, nextId, i, j);
  }

  lemma SlotsStep(g: OpGraph, e: Backends, ids: seq<int>, r: SplitPlan, i: nat, j: nat)
    requires i < |g.nodes| && j < |Src(g, i)| && |r.splits| > 0 && |ids| == |r.src| == |g.tensors|
    requires SlotsDone(g, e, ids, r.src, r.copies, i, r.splits[|r.splits| - 1].backend, j)
    requires NeedsCopy(g, e, ids, Src(g, i)[j], r.splits[|r.splits| - 1].backend) ==>
        (Src(g, i)[j], r.splits[|r.splits| - 1].backend) in r.copies
    ensures SlotsDone(g, e, ids, Rewritten(g, e, ids, r, i, j), r.copies, i, r.splits[|r.splits| - 1].backend, j + 1)
  {
  }

  lemma FirstStep(g: OpGraph, e: Backends, ids: seq<int>, r: SplitPlan, nextId: nat, i: nat, j: nat)
    requires i < |g.nodes| && j < |Src(g, i)| && |r.splits| > 0
    requires CopiesOk(g, e, ids, r.splits, r.copies, nextId) && FirstMadeInTime(g, e, ids, r.splits, i, j)
    requires NeedsCopy(g, e, ids, Src(g, i)[j], r.splits[|r.splits| - 1].backend) ==>
        (Src(g, i)[j], r.splits[|r.splits| - 1].backend) in r.copies
    ensures FirstMadeInTime(g, e, ids, r.splits, i, j + 1)
  {
  }

  /** Rewriting node `i` leaves the nodes before it alone. */
  lemma OthersKept(g: OpGraph, e: Backends, ids: seq<int>, r: SplitPlan, nextId: nat, i: nat, src': seq<seq<nat>>)
    requires i < |g.nodes| && Distinct(g) && Between(g, e, ids, r, nextId, i + 1, i) && Computing(g, g.nodes[i])
    requires |src'| == |r.src| && forall t :: 0 <= t < |src'| && t != g.nodes[i] ==> src'[t] == r.src[t]
    ensures Between(g, e, ids, r.(src := src'), nextId, i + 1, i)
  {
    forall k, p | 0 <= k < |r.splits| && r.splits[k].start <= p < r.splits[k].end && p < i && Computing(g, g.nodes[p])
      ensures SlotsDone(g, e, ids, src', r.copies, p, r.splits[k].backend, |Src(g, p)|)
      ensures MadeInTime(g, e, ids, r.splits, k, p)
    {
      assert SplitDone(g, e, ids, r.src, r.copies, r.splits[k], i);
      assert g.nodes[p] != g.nodes[i];
    }
  }

  lemma NodeFinished(g: OpGraph, e: Backends, ids: seq<int>, r: SplitPlan, nextId: nat, i: nat)
    requires i < |g.nodes| && Within(g, e, ids, r, nextId, i, |Src(g, i)|)
    ensures Between(g, e, ids, r, nextId, i + 1, i + 1)
  {
    var all := r.splits;
    forall k, p | 0 <= k < |all| && all[k].start <= p < all[k].end && p < i + 1 && Computing(g, g.nodes[p])
      ensures SlotsDone(g, e, ids, r.src, r.copies, p, all[k].backend, |Src(g, p)|) && MadeInTime(g, e, ids, all, k, p)
    {
      if p < i { assert SplitDone(g, e, ids, r.src, r.copies, all[k], i); }
      else { LastHolds(g, ids, all, i + 1, k); }
    }
  }

  /** Only the last split holds the last node. */
  lemma {:induction false} LastHolds(g: OpGraph, ids: seq<int>, all: seq<Split>, n: nat, k: nat)
    requires Chained(g, ids, all, n) && k < |all| && all[k].end == n && all[|all| - 1].start < n
    ensures k == |all| - 1
    decreases |all| - k
  {
    if k < |all| - 1 {
      assert all[k + 1].start == n && all[k + 1].end == n;
      LastHolds(g, ids, all, n, k + 1);
    }
  }
}
