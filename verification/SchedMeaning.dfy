/** Running the splits of a graph, with copies made when a split starts, against running the graph. */
module SchedMeaning {
  import opened Wrappers
  import opened SchedGraphs
  import opened SchedAssign
  import opened SchedSplit

  /** What operations compute, what views show of their root, what memory for copies holds before it
      is written, and what a backend finds or leaves in the memory of a tensor that it cannot access. */
  datatype Meaning = Meaning(op: (nat, seq<int>) -> int, look: (nat, int) -> int, junk: nat -> int, lost: nat -> int)

  /** Contents of the graph's own tensors, and of the copies written so far. */
  datatype Store = Store(values: seq<int>, copied: map<nat, int>)

  function Value(g: OpGraph, m: Meaning, values: seq<int>, t: nat): int
    requires t < |g.tensors| == |values|
  {
    if g.tensors[t].viewSrc.Some? then m.look(t, values[Root(g, t)]) else values[t]
  }

  function Args(g: OpGraph, m: Meaning, values: seq<int>, i: nat): (r: seq<int>)
    requires i < |g.nodes| && |values| == |g.tensors|
  {
    seq(|Src(g, i)|, j requires 0 <= j < |Src(g, i)| => Value(g, m, values, Src(g, i)[j]))
  }

  /** The graph itself: contents after the first `n` nodes. */
  function Run(g: OpGraph, m: Meaning, init: seq<int>, n: nat): (r: seq<int>)
    requires n <= |g.nodes| && |init| == |g.tensors|
    ensures |r| == |g.tensors|
  {
    if n == 0 then init
    else
      var v := Run(g, m, init, n - 1);
      if Computing(g, g.nodes[n - 1]) then v[g.nodes[n - 1] := m.op(g.nodes[n - 1], Args(g, m, v, n - 1))] else v
  }

  // ---- the splits

  ghost predicate Runnable(g: OpGraph, r: SplitPlan) {
    && |r.src| == |g.tensors|
    && forall k :: 0 <= k < |r.splits| ==> SplitRunnable(g, r, r.splits[k])
  }

  ghost predicate SplitRunnable(g: OpGraph, r: SplitPlan, s: Split) {
    s.start <= s.end <= |g.nodes| && forall x ::
        0 <= x < |s.inputs| ==> s.inputs[x] < |g.tensors| && (s.inputs[x], s.backend) in r.copies
  }

  /** Backend `b` can access the memory of `t`: that of its root, which was assigned beforehand or is
      of the type the root's backend allocates in. */
  predicate CanAccess(g: OpGraph, e: Backends, ids: seq<int>, t: nat, b: nat)
    requires t < |g.tensors| == |ids|
  {
    BufferSupported(g, e, ids, Root(g, t), b)
  }

  /** What a node on backend `b` reads. */
  function Fetch(g: OpGraph, e: Backends, ids: seq<int>, m: Meaning, st: Store, b: nat, t: nat): int
    requires |st.values| == |g.tensors| == |ids|
  {
    if t < |g.tensors| then (if CanAccess(g, e, ids, t, b) then Value(g, m, st.values, t) else m.lost(t))
    else if t in st.copied then st.copied[t] else m.junk(t)
  }

  function Fetched(g: OpGraph, e: Backends, ids: seq<int>, m: Meaning, st: Store, b: nat, src: seq<nat>): seq<int>
    requires |st.values| == |g.tensors| == |ids|
  {
    seq(|src|, j requires 0 <= j < |src| => Fetch(g, e, ids, m, st, b, src[j]))
  }

  /** What node `t` leaves in its memory. */
  function Computed(g: OpGraph, e: Backends, ids: seq<int>, m: Meaning, st: Store, b: nat, t: nat, src: seq<nat>): int
    requires |st.values| == |g.tensors| == |ids| && t < |g.tensors|
  {
    if CanAccess(g, e, ids, t, b) then m.op(t, Fetched(g, e, ids, m, st, b, src)) else m.lost(t)
  }

  /** The first `n` inputs of split `s` are copied. */
  ghost function CopyInputs(g: OpGraph, m: Meaning, r: SplitPlan, s: Split, st: Store, n: nat): (st': Store)
    requires SplitRunnable(g, r, s) && n <= |s.inputs| && |st.values| == |g.tensors|
    ensures st'.values == st.values
  {
    if n == 0 then st
    else
      var u := CopyInputs(g, m, r, s, st, n - 1);
      u.(copied := u.copied[r.copies[(s.inputs[n - 1], s.backend)] := Value(g, m, u.values, s.inputs[n - 1])])
  }

  /** The nodes from `lo` to `hi` are run, with their rewritten sources. */
  ghost function RunNodes(g: OpGraph, e: Backends, ids: seq<int>, m: Meaning, r: SplitPlan, b: nat, st: Store,
                          lo: nat, hi: nat): (st': Store)
    requires lo <= hi <= |g.nodes| && |st.values| == |g.tensors| == |r.src| == |ids|
    ensures |st'.values| == |g.tensors| && st'.copied == st.copied
    decreases hi
  {
    if hi == lo then st
    else
      var u := RunNodes(g, e, ids, m, r, b, st, lo, hi - 1);
      var t := g.nodes[hi - 1];
      if Computing(g, t) then u.(values := u.values[t := Computed(g, e, ids, m, u, b, t, r.src[t])]) else u
  }

  /** The first `k` splits, one after the other. */
  ghost function RunSplits(g: OpGraph, e: Backends, ids: seq<int>, m: Meaning, r: SplitPlan, init: seq<int>,
                           k: nat): (st: Store)
    requires Runnable(g, r) && k <= |r.splits| && |init| == |g.tensors| == |ids|
    ensures |st.values| == |g.tensors|
  {
    if k == 0 then Store(init, map[])
    else
      var s := r.splits[k - 1];
      var u := RunSplits(g, e, ids, m, r, init, k - 1);
      RunNodes(g, e, ids, m, r, s.backend, CopyInputs(g, m, r, s, u, |s.inputs|), s.start, s.end)
  }

  /** The run as the scheduler does it. */
  method ComputeSplits(g: OpGraph, e: Backends, ids: seq<int>, m: Meaning, r: SplitPlan, init: seq<int>)
    returns (st: Store)
    requires Runnable(g, r) && |init| == |g.tensors| == |ids|
    ensures st == RunSplits(g, e, ids, m, r, init, |r.splits|)
  {
    st := Store(init, map[]);
    var k := 0;
    while k < |r.splits|
      invariant k <= |r.splits| && st == RunSplits(g, e, ids, m, r, init, k)
    {
      st := ComputeSplit(g, e, ids, m, r, init, k, st);
      k := k + 1;
    }
    assert k == |r.splits|;
  }

  method ComputeSplit(g: OpGraph, e: Backends, ids: seq<int>, m: Meaning, r: SplitPlan, ghost init: seq<int>, k: nat,
                      before: Store)
    returns (st: Store)
    requires Runnable(g, r) && |init| == |g.tensors| == |ids| && k < |r.splits|
    requires before == RunSplits(g, e, ids, m, r, init, k)
    ensures st == RunSplits(g, e, ids, m, r, init, k + 1)
  {
    assert SplitRunnable(g, r, r.splits[k]);
    st := ComputeInputs(g, m, r, r.splits[k], before);
    st := ComputeNodes(g, e, ids, m, r, r.splits[k], st);
  }

  method ComputeInputs(g: OpGraph, m: Meaning, r: SplitPlan, s: Split, before: Store) returns (st: Store)
    requires SplitRunnable(g, r, s) && |before.values| == |g.tensors|
    ensures st == CopyInputs(g, m, r, s, before, |s.inputs|)
  {
    st := before;
    var x := 0;
    while x < |s.inputs|
      invariant x <= |s.inputs| && st == CopyInputs(g, m, r, s, before, x)
    {
      var input := s.inputs[x];
      st := st.(copied := st.copied[r.copies[(input, s.backend)] := Value(g, m, st.values, input)]);
      x := x + 1;
    }
  }

  method ComputeNodes(g: OpGraph, e: Backends, ids: seq<int>, m: Meaning, r: SplitPlan, s: Split, start: Store)
    returns (st: Store)
    requires s.start <= s.end <= |g.nodes| && |start.values| == |g.tensors| == |r.src| == |ids|
    ensures st == RunNodes(g, e, ids, m, r, s.backend, start, s.start, s.end)
  {
    st := start;
    var i := s.start;
    while i < s.end
      invariant s.start <= i <= s.end && st == RunNodes(g, e, ids, m, r, s.backend, start, s.start, i)
    {
      var t := g.nodes[i];
      if !g.tensors[t].viewOp {
        st := st.(values := st.values[t := Computed(g, e, ids, m, st, s.backend, t, r.src[t])]);
      }
      i := i + 1;
    }
  }

  // ---- what the two runs have in common

  /** Only views refer to other tensors' contents, and whatever a node reads has been computed before. */
  ghost predicate SingleAssignment(g: OpGraph) {
    && Ordered(g)
    && (forall i :: 0 <= i < |g.nodes| && Computing(g, g.nodes[i]) ==> g.tensors[g.nodes[i]].viewSrc.None?)
    && (forall i, j, k :: 0 <= i <= k < |g.nodes| && 0 <= j < |Src(g, i)| ==> g.nodes[k] != Root(g, Src(g, i)[j]))
  }

  /** No node from `lo` up to `hi` computes the contents of `t`. */
  ghost predicate Settled(g: OpGraph, t: nat, lo: nat, hi: nat)
    requires t < |g.tensors| && hi <= |g.nodes|
  {
    forall i :: lo <= i < hi && Computing(g, g.nodes[i]) ==> g.nodes[i] != Root(g, t)
  }

  /** No split copies a tensor whose contents it computes itself. */
  ghost predicate NoStaleCopy(g: OpGraph, r: SplitPlan)
    requires Runnable(g, r)
  {
    forall k, x ::
        0 <= k < |r.splits| && 0 <= x < |r.splits[k].inputs| ==>
        Settled(g, r.splits[k].inputs[x], r.splits[k].start, r.splits[k].end)
  }

  /** Node `i` is on a backend that can access its memory and that of every source which is not
      copied. */
  ghost predicate NodeAccessible(g: OpGraph, e: Backends, ids: seq<int>, i: nat)
    requires i < |g.nodes| && |ids| == |g.tensors|
  {
    var b := IdOf(ids, g.nodes[i]);
    && CanAccess(g, e, ids, g.nodes[i], b)
    && forall j ::
        0 <= j < |Src(g, i)| ==> NeedsCopy(g, e, ids, Src(g, i)[j], b) || CanAccess(g, e, ids, Src(g, i)[j], b)
  }

  ghost predicate AllAccessible(g: OpGraph, e: Backends, ids: seq<int>) {
    |ids| == |g.tensors| && forall i :: 0 <= i < |g.nodes| && Computing(g, g.nodes[i]) ==> NodeAccessible(g, e, ids, i)
  }

  /** Both runs leave the same contents in every tensor. */
  ghost predicate SameResult(g: OpGraph, e: Backends, ids: seq<int>, r: SplitPlan, m: Meaning, init: seq<int>)
    requires Runnable(g, r) && |ids| == |g.tensors|
  {
    |init| == |g.tensors| ==> RunSplits(g, e, ids, m, r, init, |r.splits|).values == Run(g, m, init, |g.nodes|)
  }

  lemma WellSplitIsRunnable(g: OpGraph, e: Backends, ids: seq<int>, r: SplitPlan)
    requires Rewired(g, e, ids, r)
    ensures Runnable(g, r)
  {
    var nextId: nat :| CopiesOk(g, e, ids, r.splits, r.copies, nextId);
    forall k | 0 <= k < |r.splits| ensures SplitRunnable(g, r, r.splits[k]) {
      forall x | 0 <= x < |r.splits[k].inputs|
        ensures r.splits[k].inputs[x] < |g.tensors| && (r.splits[k].inputs[x], r.splits[k].backend) in r.copies
      {
        assert InputOk(g, e, ids, r.splits[k], r.copies, x);
      }
    }
  }

  /** The copy of `t` on `b` holds what `t` holds, and `t` will not change any more. */
  ghost predicate CopyHolds(g: OpGraph, m: Meaning, r: SplitPlan, st: Store, p: nat, t: nat, b: nat) {
    && |st.values| == |g.tensors| && p <= |g.nodes| && t < |g.tensors| && (t, b) in r.copies
    && r.copies[(t, b)] in st.copied && st.copied[r.copies[(t, b)]] == Value(g, m, st.values, t)
    && Settled(g, t, p, |g.nodes|)
  }

  /** At node `p`, with the copies of the first `k` splits made. */
  ghost predicate InStep(g: OpGraph, m: Meaning, r: SplitPlan, init: seq<int>, st: Store, p: nat, k: nat)
    requires |init| == |g.tensors| && p <= |g.nodes|
  {
    && st.values == Run(g, m, init, p)
    && forall t: nat, b: nat :: MadeBy(r.splits, t, b, k) ==> CopyHolds(g, m, r, st, p, t, b)
  }

  /** A split that wants `t` and does not compute it finds it finished. */
  lemma WantedIsSettled(g: OpGraph, s: Split, t: nat)
    requires SingleAssignment(g) && t < |g.tensors| && s.end <= |g.nodes| && Wanted(g, s, t)
    requires Settled(g, t, s.start, s.end)
    ensures Settled(g, t, s.start, |g.nodes|)
  {
    var p, j :| s.start <= p < s.end && p < |g.nodes| && Computing(g, g.nodes[p]) && 0 <= j < |Src(g, p)|
        && Src(g, p)[j] == t;
    forall i | s.end <= i < |g.nodes| ensures g.nodes[i] != Root(g, t) {}
  }

  ghost predicate Injective(g: OpGraph, r: SplitPlan, nextId: nat) {
    && (forall c :: c in r.copies ==> |g.tensors| <= r.copies[c] < nextId)
    && (forall c, d :: c in r.copies && d in r.copies && c != d ==> r.copies[c] != r.copies[d])
  }

  lemma CopyStays(g: OpGraph, m: Meaning, r: SplitPlan, s: Split, st: Store, n: nat, nextId: nat, x: nat)
    requires SplitRunnable(g, r, s) && x < n - 1 < |s.inputs| && |st.values| == |g.tensors| && Injective(g, r, nextId)
    requires Copied(g, m, r, s, CopyInputs(g, m, r, s, st, n - 1), x)
    ensures Copied(g, m, r, s, CopyInputs(g, m, r, s, st, n), x)
  {
    var c, d := (s.inputs[x], s.backend), (s.inputs[n - 1], s.backend);
    assert c in r.copies && d in r.copies;
    assert c != d ==> r.copies[c] != r.copies[d];
  }

  lemma {:induction false} CopiesAreMade(g: OpGraph, m: Meaning, r: SplitPlan, s: Split, st: Store, n: nat, nextId: nat)
    requires SplitRunnable(g, r, s) && n <= |s.inputs| && |st.values| == |g.tensors| && Injective(g, r, nextId)
    ensures var u := CopyInputs(g, m, r, s, st, n);
      && (forall x :: 0 <= x < n ==> Copied(g, m, r, s, u, x))
      && (forall c :: c in r.copies && !(c.1 == s.backend && c.0 in s.inputs[..n]) ==>
            (r.copies[c] in u.copied <==> r.copies[c] in st.copied)
                && (r.copies[c] in st.copied ==> u.copied[r.copies[c]] == st.copied[r.copies[c]]))
  {
    if n > 0 {
      CopiesAreMade(g, m, r, s, st, n - 1, nextId);
      var u, w := CopyInputs(g, m, r, s, st, n), CopyInputs(g, m, r, s, st, n - 1);
      assert s.inputs[..n] == s.inputs[..n - 1] + [s.inputs[n - 1]];
      forall x | 0 <= x < n ensures Copied(g, m, r, s, u, x) {
        if x < n - 1 { CopyStays(g, m, r, s, st, n, nextId, x); }
      }
    }
  }

  ghost predicate Copied(g: OpGraph, m: Meaning, r: SplitPlan, s: Split, st: Store, x: nat)
    requires SplitRunnable(g, r, s) && x < |s.inputs| && |st.values| == |g.tensors|
  {
    var c := r.copies[(s.inputs[x], s.backend)];
    c in st.copied && st.copied[c] == Value(g, m, st.values, s.inputs[x])
  }

  /** What the soundness proof uses of a well-formed split plan. */
  ghost predicate Sane(g: OpGraph, e: Backends, ids: seq<int>, r: SplitPlan, nextId: nat) {
    && Rewired(g, e, ids, r) && CopiesOk(g, e, ids, r.splits, r.copies, nextId) && SingleAssignment(g) && Runnable(g, r)
  }

  lemma SplitStarts(g: OpGraph, e: Backends, ids: seq<int>, r: SplitPlan, nextId: nat, m: Meaning, init: seq<int>,
                    st: Store, k: nat)
    requires Sane(g, e, ids, r, nextId) && NoStaleCopy(g, r) && k < |r.splits| && |init| == |g.tensors|
    requires InStep(g, m, r, init, st, r.splits[k].start, k)
    ensures InStep(g, m, r, init, CopyInputs(g, m, r, r.splits[k], st, |r.splits[k].inputs|), r.splits[k].start, k + 1)
  {
    var s, k' := r.splits[k], k + 1;
    var u := CopyInputs(g, m, r, s, st, |s.inputs|);
    forall t: nat, b: nat | MadeBy(r.splits, t, b, k') ensures CopyHolds(g, m, r, u, s.start, t, b) {
      CopyStarts(g, e, ids, r, nextId, m, st, k, t, b);
    }
  }

  lemma CopyStarts(g: OpGraph, e: Backends, ids: seq<int>, r: SplitPlan, nextId: nat, m: Meaning, st: Store, k: nat,
                   t: nat, b: nat)
    requires Sane(g, e, ids, r, nextId) && NoStaleCopy(g, r) && k < |r.splits| && MadeBy(r.splits, t, b, k + 1)
    requires |st.values| == |g.tensors|
    requires MadeBy(r.splits, t, b, k) ==> CopyHolds(g, m, r, st, r.splits[k].start, t, b)
    ensures CopyHolds(g, m, r, CopyInputs(g, m, r, r.splits[k], st, |r.splits[k].inputs|), r.splits[k].start, t, b)
  {
    var s := r.splits[k];
    CopiesAreMade(g, m, r, s, st, |s.inputs|, nextId);
    assert s.inputs[..|s.inputs|] == s.inputs;
    if b == s.backend && t in s.inputs {
      var x :| 0 <= x < |s.inputs| && s.inputs[x] == t;
      assert Copied(g, m, r, s, CopyInputs(g, m, r, s, st, |s.inputs|), x) && InputOk(g, e, ids, s, r.copies, x);
      WantedIsSettled(g, s, t);
    } else {
      assert MadeBy(r.splits, t, b, k);
    }
  }

  /** The rewritten sources of node `p` read what the sources hold. */
  lemma FetchesArgs(g: OpGraph, e: Backends, ids: seq<int>, r: SplitPlan, nextId: nat, m: Meaning, init: seq<int>,
                    st: Store, k: nat, p: nat)
    requires Sane(g, e, ids, r, nextId) && AllAccessible(g, e, ids) && k < |r.splits| && |init| == |g.tensors|
    requires r.splits[k].start <= p < r.splits[k].end && Computing(g, g.nodes[p]) && InStep(g, m, r, init, st, p, k + 1)
    ensures Computed(g, e, ids, m, st, r.splits[k].backend, g.nodes[p], r.src[g.nodes[p]])
        == m.op(g.nodes[p], Args(g, m, st.values, p))
  {
    var b := r.splits[k].backend;
    assert OwnBackend(g, ids, r.splits[k]) && NodeAccessible(g, e, ids, p);
    assert SplitDone(g, e, ids, r.src, r.copies, r.splits[k], |g.nodes|);
    assert SlotsDone(g, e, ids, r.src, r.copies, p, b, |Src(g, p)|) && MadeInTime(g, e, ids, r.splits, k, p);
    forall j | 0 <= j < |Src(g, p)|
      ensures Fetch(g, e, ids, m, st, b, r.src[g.nodes[p]][j]) == Value(g, m, st.values, Src(g, p)[j])
    {
      assert SlotDone(g, e, ids, r.copies, Src(g, p)[j], r.src[g.nodes[p]][j], b);
      if NeedsCopy(g, e, ids, Src(g, p)[j], b) { assert CopyHolds(g, m, r, st, p, Src(g, p)[j], b); }
    }
    assert Fetched(g, e, ids, m, st, b, r.src[g.nodes[p]]) == Args(g, m, st.values, p);
  }

  lemma NodeRuns(g: OpGraph, e: Backends, ids: seq<int>, r: SplitPlan, nextId: nat, m: Meaning, init: seq<int>,
                 st: Store, k: nat, p: nat)
    requires Sane(g, e, ids, r, nextId) && AllAccessible(g, e, ids) && k < |r.splits| && |init| == |g.tensors|
    requires r.splits[k].start <= p < r.splits[k].end && InStep(g, m, r, init, st, p, k + 1)
    ensures InStep(g, m, r, init, RunNodes(g, e, ids, m, r, r.splits[k].backend, st, p, p + 1), p + 1, k + 1)
  {
    var b := r.splits[k].backend;
    var u, t := RunNodes(g, e, ids, m, r, b, st, p, p + 1), g.nodes[p];
    assert RunNodes(g, e, ids, m, r, b, st, p, p) == st;
    if Computing(g, t) { FetchesArgs(g, e, ids, r, nextId, m, init, st, k, p); }
    var p', k' := p + 1, k + 1;
    forall c: nat, d: nat | MadeBy(r.splits, c, d, k') ensures CopyHolds(g, m, r, u, p', c, d) {
      CopyStillHolds(g, m, r, st, u, p, c, d);
    }
  }

  /** A node that runs does not touch what is copied. */
  lemma CopyStillHolds(g: OpGraph, m: Meaning, r: SplitPlan, st: Store, u: Store, p: nat, t: nat, b: nat)
    requires CopyHolds(g, m, r, st, p, t, b) && p < |g.nodes| && |u.values| == |g.tensors| && u.copied == st.copied
    requires |st.values| == |g.tensors|
    requires u.values == st.values || Computing(g, g.nodes[p])
    requires u.values == st.values[g.nodes[p] := u.values[g.nodes[p]]]
    ensures CopyHolds(g, m, r, u, p + 1, t, b)
  {
  }

  lemma {:induction false} NodesRun(g: OpGraph, e: Backends, ids: seq<int>, r: SplitPlan, nextId: nat, m: Meaning,
                                    init: seq<int>, st: Store, k: nat, hi: nat)
    requires Sane(g, e, ids, r, nextId) && AllAccessible(g, e, ids) && k < |r.splits| && |init| == |g.tensors|
    requires r.splits[k].start <= hi <= r.splits[k].end && InStep(g, m, r, init, st, r.splits[k].start, k + 1)
    ensures InStep(g, m, r, init, RunNodes(g, e, ids, m, r, r.splits[k].backend, st, r.splits[k].start, hi), hi, k + 1)
    decreases hi
  {
    var lo, b := r.splits[k].start, r.splits[k].backend;
    if lo < hi {
      NodesRun(g, e, ids, r, nextId, m, init, st, k, hi - 1);
      var u := RunNodes(g, e, ids, m, r, b, st, lo, hi - 1);
      NodesCompose(g, e, ids, m, r, b, st, lo, hi - 1, hi);
      NodeRuns(g, e, ids, r, nextId, m, init, u, k, hi - 1);
    } else {
      assert RunNodes(g, e, ids, m, r, b, st, lo, hi) == st;
    }
  }

  function EndOf(r: SplitPlan, k: nat): nat
    requires k <= |r.splits|
  {
    if k == 0 then 0 else r.splits[k - 1].end
  }

  lemma {:induction false} SplitsRun(g: OpGraph, e: Backends, ids: seq<int>, r: SplitPlan, nextId: nat, m: Meaning,
                                     init: seq<int>, k: nat)
    requires Sane(g, e, ids, r, nextId) && NoStaleCopy(g, r) && AllAccessible(g, e, ids) && k <= |r.splits|
    requires |init| == |g.tensors|
    ensures EndOf(r, k) <= |g.nodes| && InStep(g, m, r, init, RunSplits(g, e, ids, m, r, init, k), EndOf(r, k), k)
  {
    if k > 0 {
      SplitsRun(g, e, ids, r, nextId, m, init, k - 1);
      var s := r.splits[k - 1];
      assert s.start == EndOf(r, k - 1);
      var u := RunSplits(g, e, ids, m, r, init, k - 1);
      SplitStarts(g, e, ids, r, nextId, m, init, u, k - 1);
      NodesRun(g, e, ids, r, nextId, m, init, CopyInputs(g, m, r, s, u, |s.inputs|), k - 1, s.end);
    }
  }

  lemma FreshCopiesSuffice(g: OpGraph, e: Backends, ids: seq<int>, r: SplitPlan, m: Meaning, init: seq<int>)
    requires Rewired(g, e, ids, r) && SingleAssignment(g) && Runnable(g, r) && NoStaleCopy(g, r)
    requires AllAccessible(g, e, ids)
    ensures SameResult(g, e, ids, r, m, init)
  {
    var nextId: nat :| CopiesOk(g, e, ids, r.splits, r.copies, nextId);
    if |init| == |g.tensors| { SplitsRun(g, e, ids, r, nextId, m, init, |r.splits|); }
  }

  // ---- why a stale copy shows

  /** Every operation yields 0, except that `root` yields 1 and `reader` passes on its source `j`. */
  function Probe(root: nat, reader: nat, j: nat): Meaning {
    Meaning((t: nat, args: seq<int>) => if t == root then 1 else if t == reader && j < |args| then args[j] else 0,
            (t: nat, v: int) => v, (t: nat) => 0, (t: nat) => 1)
  }

  /** A node's contents change only when it is run. */
  lemma {:induction false} RunKeeps(g: OpGraph, m: Meaning, init: seq<int>, t: nat, lo: nat, hi: nat)
    requires lo <= hi <= |g.nodes| && |init| == |g.tensors| && t < |g.tensors|
    requires forall i :: lo <= i < hi ==> g.nodes[i] != t
    ensures Run(g, m, init, hi)[t] == Run(g, m, init, lo)[t]
  {
    if lo < hi { RunKeeps(g, m, init, t, lo, hi - 1); }
  }

  lemma {:induction false} NodesKeep(g: OpGraph, e: Backends, ids: seq<int>, m: Meaning, r: SplitPlan, b: nat,
                                     st: Store, t: nat, lo: nat, hi: nat)
    requires lo <= hi <= |g.nodes| && |st.values| == |g.tensors| == |r.src| == |ids| && t < |g.tensors|
    requires forall i :: lo <= i < hi ==> g.nodes[i] != t
    ensures RunNodes(g, e, ids, m, r, b, st, lo, hi).values[t] == st.values[t]
    decreases hi
  {
    if lo < hi { NodesKeep(g, e, ids, m, r, b, st, t, lo, hi - 1); }
  }

  lemma {:induction false} NodesCompose(g: OpGraph, e: Backends, ids: seq<int>, m: Meaning, r: SplitPlan, b: nat,
                                        st: Store, lo: nat, mid: nat, hi: nat)
    requires lo <= mid <= hi <= |g.nodes| && |st.values| == |g.tensors| == |r.src| == |ids|
    ensures RunNodes(g, e, ids, m, r, b, st, lo, hi)
        == RunNodes(g, e, ids, m, r, b, RunNodes(g, e, ids, m, r, b, st, lo, mid), mid, hi)
    decreases hi
  {
    if mid < hi { NodesCompose(g, e, ids, m, r, b, st, lo, mid, hi - 1); }
  }

  lemma {:induction false} SplitsKeep(g: OpGraph, e: Backends, ids: seq<int>, m: Meaning, r: SplitPlan,
                                      init: seq<int>, t: nat, k: nat, l: nat)
    requires Runnable(g, r) && Chained(g, ids, r.splits, |g.nodes|) && k <= l <= |r.splits| && |init| == |g.tensors|
    requires t < |g.tensors|
    requires forall i :: EndOf(r, k) <= i < |g.nodes| && i < EndOf(r, l) ==> g.nodes[i] != t
    ensures RunSplits(g, e, ids, m, r, init, l).values[t] == RunSplits(g, e, ids, m, r, init, k).values[t]
  {
    if k < l {
      var s := r.splits[l - 1];
      assert s.start == EndOf(r, l - 1);
      EndsGrow(g, ids, r, k, l - 1);
      SplitsKeep(g, e, ids, m, r, init, t, k, l - 1);
      var u := RunSplits(g, e, ids, m, r, init, l - 1);
      NodesKeep(g, e, ids, m, r, s.backend, CopyInputs(g, m, r, s, u, |s.inputs|), t, s.start, s.end);
    }
  }

  lemma {:induction false} EndsGrow(g: OpGraph, ids: seq<int>, r: SplitPlan, k: nat, l: nat)
    requires Chained(g, ids, r.splits, |g.nodes|) && k <= l <= |r.splits|
    ensures EndOf(r, k) <= EndOf(r, l) <= |g.nodes|
  {
    if k < l {
      EndsGrow(g, ids, r, k, l - 1);
      assert r.splits[l - 1].start == EndOf(r, l - 1);
    }
  }

  /** Split `k` copies `t`, whose contents its node `i` computes, and its node `q` reads the copy in
      slot `j`. */
  ghost predicate Stale(g: OpGraph, e: Backends, ids: seq<int>, r: SplitPlan, k: nat, x: nat, i: nat, q: nat, j: nat)
    requires |ids| == |g.tensors| == |r.src|
  {
    && k < |r.splits| && x < |r.splits[k].inputs| && r.splits[k].end <= |g.nodes|
    && r.splits[k].start <= i < q < r.splits[k].end && j < |Src(g, q)|
    && Src(g, q)[j] == r.splits[k].inputs[x] < |g.tensors| && g.nodes[i] == Root(g, Src(g, q)[j])
    && Computing(g, g.nodes[i]) && Computing(g, g.nodes[q])
    && NeedsCopy(g, e, ids, Src(g, q)[j], r.splits[k].backend)
  }

  lemma StaleCopyIsRead(g: OpGraph, e: Backends, ids: seq<int>, r: SplitPlan)
    returns (k: nat, x: nat, i: nat, q: nat, j: nat)
    requires Rewired(g, e, ids, r) && SingleAssignment(g) && Runnable(g, r) && !NoStaleCopy(g, r)
    ensures Stale(g, e, ids, r, k, x, i, q, j)
  {
    var nextId: nat :| CopiesOk(g, e, ids, r.splits, r.copies, nextId);
    k, x :| 0 <= k < |r.splits| && 0 <= x < |r.splits[k].inputs|
        && !Settled(g, r.splits[k].inputs[x], r.splits[k].start, r.splits[k].end);
    var s := r.splits[k];
    var t := s.inputs[x];
    assert InputOk(g, e, ids, s, r.copies, x);
    i := ComputedBy(g, t, s.start, s.end);
    q, j := WantedBy(g, s, t);
  }

  lemma ComputedBy(g: OpGraph, t: nat, lo: nat, hi: nat) returns (i: nat)
    requires t < |g.tensors| && hi <= |g.nodes| && !Settled(g, t, lo, hi)
    ensures lo <= i < hi && Computing(g, g.nodes[i]) && g.nodes[i] == Root(g, t)
  {
    i :| lo <= i < hi && Computing(g, g.nodes[i]) && g.nodes[i] == Root(g, t);
  }

  lemma WantedBy(g: OpGraph, s: Split, t: nat) returns (q: nat, j: nat)
    requires Wanted(g, s, t)
    ensures s.start <= q < s.end && q < |g.nodes| && Computing(g, g.nodes[q])
    ensures j < |Src(g, q)| && Src(g, q)[j] == t
  {
    q, j :| s.start <= q < s.end && q < |g.nodes| && Computing(g, g.nodes[q]) && 0 <= j < |Src(g, q)|
        && Src(g, q)[j] == t;
  }

  /** In the graph the reader sees the 1. */
  lemma ReaderSeesRoot(g: OpGraph, init: seq<int>, i: nat, q: nat, j: nat)
    requires SingleAssignment(g) && i < q < |g.nodes| && j < |Src(g, q)| && |init| == |g.tensors|
    requires g.nodes[i] == Root(g, Src(g, q)[j]) && Computing(g, g.nodes[i]) && Computing(g, g.nodes[q])
    ensures Run(g, Probe(g.nodes[i], g.nodes[q], j), init, |g.nodes|)[g.nodes[q]] == 1
  {
    var m := Probe(g.nodes[i], g.nodes[q], j);
    RunKeeps(g, m, init, g.nodes[i], i + 1, q);
    assert Run(g, m, init, i + 1)[g.nodes[i]] == 1;
    var v := Run(g, m, init, q);
    assert Args(g, m, v, q)[j] == 1;
    assert Run(g, m, init, q + 1)[g.nodes[q]] == 1;
    RunKeeps(g, m, init, g.nodes[q], q + 1, |g.nodes|);
  }

  function Zeros(n: nat): seq<int> {
    seq(n, _ => 0)
  }

  lemma CopyIsStale(g: OpGraph, e: Backends, ids: seq<int>, r: SplitPlan, k: nat, x: nat, i: nat, q: nat, j: nat)
    requires Rewired(g, e, ids, r) && SingleAssignment(g) && Runnable(g, r) && Stale(g, e, ids, r, k, x, i, q, j)
    ensures var m, s := Probe(g.nodes[i], g.nodes[q], j), r.splits[k];
            var u := RunSplits(g, e, ids, m, r, Zeros(|g.tensors|), k);
            j < |r.src[g.nodes[q]]|
                && Fetch(g, e, ids, m, CopyInputs(g, m, r, s, u, |s.inputs|), s.backend, r.src[g.nodes[q]][j]) == 0
    ensures j < |r.src[g.nodes[q]]| && |g.tensors| <= r.src[g.nodes[q]][j]
  {
    var nextId: nat :| CopiesOk(g, e, ids, r.splits, r.copies, nextId);
    var m, s, t := Probe(g.nodes[i], g.nodes[q], j), r.splits[k], Src(g, q)[j];
    var u := RunSplits(g, e, ids, m, r, Zeros(|g.tensors|), k);
    assert s.start == EndOf(r, k);
    SplitsKeep(g, e, ids, m, r, Zeros(|g.tensors|), g.nodes[i], 0, k);
    CopiesAreMade(g, m, r, s, u, |s.inputs|, nextId);
    assert Copied(g, m, r, s, CopyInputs(g, m, r, s, u, |s.inputs|), x);
    assert SplitDone(g, e, ids, r.src, r.copies, s, |g.nodes|);
    assert SlotDone(g, e, ids, r.copies, t, r.src[g.nodes[q]][j], s.backend);
  }

  /** The reader passes on what it fetches. */
  lemma ReaderPassesOn(g: OpGraph, e: Backends, ids: seq<int>, r: SplitPlan, b: nat, w: Store, lo: nat, root: nat,
                       q: nat, j: nat)
    requires |r.src| == |g.tensors| == |w.values| == |ids| && lo <= q < |g.nodes| && Computing(g, g.nodes[q])
    requires root != g.nodes[q]
    requires j < |r.src[g.nodes[q]]| && |g.tensors| <= r.src[g.nodes[q]][j] && CanAccess(g, e, ids, g.nodes[q], b)
    ensures var m := Probe(root, g.nodes[q], j);
            RunNodes(g, e, ids, m, r, b, w, lo, q + 1).values[g.nodes[q]]
                == Fetch(g, e, ids, m, w, b, r.src[g.nodes[q]][j])
  {
    var m := Probe(root, g.nodes[q], j);
    var y := RunNodes(g, e, ids, m, r, b, w, lo, q);
    assert Fetched(g, e, ids, m, y, b, r.src[g.nodes[q]])[j] == Fetch(g, e, ids, m, w, b, r.src[g.nodes[q]][j]);
  }

  lemma NodeStaysInSplit(g: OpGraph, e: Backends, ids: seq<int>, m: Meaning, r: SplitPlan, b: nat, w: Store,
                         lo: nat, q: nat, hi: nat)
    requires lo <= q < hi <= |g.nodes| && Distinct(g) && |w.values| == |g.tensors| == |r.src| == |ids|
    ensures RunNodes(g, e, ids, m, r, b, w, lo, hi).values[g.nodes[q]]
         == RunNodes(g, e, ids, m, r, b, w, lo, q + 1).values[g.nodes[q]]
  {
    NodesCompose(g, e, ids, m, r, b, w, lo, q + 1, hi);
    NodesKeep(g, e, ids, m, r, b, RunNodes(g, e, ids, m, r, b, w, lo, q + 1), g.nodes[q], q + 1, hi);
  }

  /** What node `q` of split `k` computed is its contents in the end. */
  lemma NodeStays(g: OpGraph, e: Backends, ids: seq<int>, m: Meaning, r: SplitPlan, init: seq<int>, k: nat, q: nat)
    requires Runnable(g, r) && Chained(g, ids, r.splits, |g.nodes|) && Distinct(g) && |init| == |g.tensors|
    requires k < |r.splits| && r.splits[k].start <= q < r.splits[k].end <= |g.nodes|
    ensures var s := r.splits[k];
            var w := CopyInputs(g, m, r, s, RunSplits(g, e, ids, m, r, init, k), |s.inputs|);
            RunSplits(g, e, ids, m, r, init, |r.splits|).values[g.nodes[q]]
            == RunNodes(g, e, ids, m, r, s.backend, w, s.start, q + 1).values[g.nodes[q]]
  {
    var s := r.splits[k];
    var w := CopyInputs(g, m, r, s, RunSplits(g, e, ids, m, r, init, k), |s.inputs|);
    NodeStaysInSplit(g, e, ids, m, r, s.backend, w, s.start, q, s.end);
    SplitsKeep(g, e, ids, m, r, init, g.nodes[q], k + 1, |r.splits|);
  }

  lemma ReaderSeesStale(g: OpGraph, e: Backends, ids: seq<int>, r: SplitPlan, k: nat, x: nat, i: nat, q: nat, j: nat)
    requires Rewired(g, e, ids, r) && SingleAssignment(g) && Runnable(g, r) && Stale(g, e, ids, r, k, x, i, q, j)
    requires AllAccessible(g, e, ids)
    ensures var st := RunSplits(g, e, ids, Probe(g.nodes[i], g.nodes[q], j), r, Zeros(|g.tensors|), |r.splits|);
            st.values[g.nodes[q]] == 0
  {
    var m, s := Probe(g.nodes[i], g.nodes[q], j), r.splits[k];
    var w := CopyInputs(g, m, r, s, RunSplits(g, e, ids, m, r, Zeros(|g.tensors|), k), |s.inputs|);
    assert OwnBackend(g, ids, s) && NodeAccessible(g, e, ids, q);
    CopyIsStale(g, e, ids, r, k, x, i, q, j);
    ReaderPassesOn(g, e, ids, r, s.backend, w, s.start, g.nodes[i], q, j);
    NodeStays(g, e, ids, m, r, Zeros(|g.tensors|), k, q);
  }

  // ---- why memory that cannot be accessed shows

  /** Every operation yields 0, except that `reader` passes on its source `j`; inaccessible memory
      yields 1. */
  function Detector(reader: nat, j: nat): Meaning {
    Meaning((t: nat, args: seq<int>) => if t == reader && j < |args| then args[j] else 0,
            (t: nat, v: int) => v, (t: nat) => 0, (t: nat) => 1)
  }

  lemma {:induction false} RunIsZero(g: OpGraph, reader: nat, j: nat, n: nat)
    requires n <= |g.nodes|
    ensures Run(g, Detector(reader, j), Zeros(|g.tensors|), n) == Zeros(|g.tensors|)
  {
    if n > 0 {
      RunIsZero(g, reader, j, n - 1);
      var m, v := Detector(reader, j), Run(g, Detector(reader, j), Zeros(|g.tensors|), n - 1);
      var args := Args(g, m, v, n - 1);
      assert forall x :: 0 <= x < |args| ==> args[x] == 0;
    }
  }

  lemma {:induction false} SplitOf(g: OpGraph, ids: seq<int>, all: seq<Split>, k: nat, q: nat) returns (l: nat)
    requires Chained(g, ids, all, |g.nodes|) && k < |all| && q < |g.nodes| && all[k].start <= q
    ensures l < |all| && all[l].start <= q < all[l].end
    decreases |all| - k
  {
    if q < all[k].end { l := k; } else { l := SplitOf(g, ids, all, k + 1, q); }
  }

  /** In the split run the node leaves 1. */
  lemma InaccessibleIsSeen(g: OpGraph, e: Backends, ids: seq<int>, r: SplitPlan, k: nat, q: nat, j: nat, st: Store)
    requires Rewired(g, e, ids, r) && k < |r.splits| && r.splits[k].start <= q < r.splits[k].end <= |g.nodes|
    requires Computing(g, g.nodes[q]) && |st.values| == |g.tensors|
    requires CanAccess(g, e, ids, g.nodes[q], r.splits[k].backend) ==>
               j < |Src(g, q)| && !NeedsCopy(g, e, ids, Src(g, q)[j], r.splits[k].backend)
                   && !CanAccess(g, e, ids, Src(g, q)[j], r.splits[k].backend)
    ensures Computed(g, e, ids, Detector(g.nodes[q], j), st, r.splits[k].backend, g.nodes[q], r.src[g.nodes[q]]) == 1
  {
    var b, m, src := r.splits[k].backend, Detector(g.nodes[q], j), r.src[g.nodes[q]];
    assert SplitDone(g, e, ids, r.src, r.copies, r.splits[k], |g.nodes|);
    assert SlotsDone(g, e, ids, r.src, r.copies, q, b, |Src(g, q)|);
    if CanAccess(g, e, ids, g.nodes[q], b) {
      assert SlotDone(g, e, ids, r.copies, Src(g, q)[j], src[j], b);
      assert Fetched(g, e, ids, m, st, b, src)[j] == 1;
    }
  }

  lemma InaccessibleShows(g: OpGraph, e: Backends, ids: seq<int>, r: SplitPlan, q: nat)
    requires Rewired(g, e, ids, r) && SingleAssignment(g) && Runnable(g, r)
    requires q < |g.nodes| && Computing(g, g.nodes[q]) && !NodeAccessible(g, e, ids, q)
    ensures exists m: Meaning, init: seq<int> :: !SameResult(g, e, ids, r, m, init)
  {
    var t := g.nodes[q];
    var k := SplitOf(g, ids, r.splits, 0, q);
    var s := r.splits[k];
    assert OwnBackend(g, ids, s);
    var j: nat := 0;
    if CanAccess(g, e, ids, t, s.backend) {
      j :| 0 <= j < |Src(g, q)| && !NeedsCopy(g, e, ids, Src(g, q)[j], s.backend)
          && !CanAccess(g, e, ids, Src(g, q)[j], s.backend);
    }
    var m, init := Detector(t, j), Zeros(|g.tensors|);
    var w := CopyInputs(g, m, r, s, RunSplits(g, e, ids, m, r, init, k), |s.inputs|);
    InaccessibleIsSeen(g, e, ids, r, k, q, j, RunNodes(g, e, ids, m, r, s.backend, w, s.start, q));
    NodeStays(g, e, ids, m, r, init, k, q);
    RunIsZero(g, t, j, |g.nodes|);
    assert !SameResult(g, e, ids, r, m, init);
  }

  // ---- when copies are fresh, in terms of the graph and the ids

  /** Node `q` reads `t` in slot `j` through a copy that is first made for its own split, after the
      start of which node `i` computes the contents of `t`. */
  ghost predicate StaleAt(g: OpGraph, e: Backends, ids: seq<int>, i: nat, q: nat, j: nat)
    requires |ids| == |g.tensors|
  {
    && i < q < |g.nodes| && j < |Src(g, q)| && Computing(g, g.nodes[i]) && Computing(g, g.nodes[q])
    && g.nodes[i] == Root(g, Src(g, q)[j]) && NeedsCopy(g, e, ids, Src(g, q)[j], IdOf(ids, g.nodes[q]))
    && StartOf(g, e, ids, q) <= i
    && (Src(g, q)[j], IdOf(ids, g.nodes[q])) !in ScanUpTo(g, e, ids, StartOf(g, e, ids, q)).made
  }

  ghost predicate CopiesStayFresh(g: OpGraph, e: Backends, ids: seq<int>) {
    |ids| == |g.tensors| && forall i, q, j :: !StaleAt(g, e, ids, i, q, j)
  }

  /** Where the split of node `q` starts, and which copies exist by then. */
  lemma SplitAsScanned(g: OpGraph, e: Backends, ids: seq<int>, r: SplitPlan, k: nat, q: nat)
    requires WellSplit(g, e, ids, r) && k < |r.splits| && r.splits[k].start <= q < r.splits[k].end <= |g.nodes|
    ensures StartOf(g, e, ids, q) == r.splits[k].start
    ensures forall t: nat, b: nat ::
        (t, b) in ScanUpTo(g, e, ids, r.splits[k].start).made <==> MadeBy(r.splits, t, b, k)
  {
    var scans: seq<Scan> :| |scans| == |g.nodes| + 1 && ScanRun(g, e, ids, scans) && Tracks(scans, r.splits);
    assert StartsThere(scans, r.splits, k) && MadeUpTo(scans, r.splits, k);
    RunIsScan(g, e, ids, scans, q + 1);
    RunIsScan(g, e, ids, scans, r.splits[k].start);
  }

  lemma StaleIsAt(g: OpGraph, e: Backends, ids: seq<int>, r: SplitPlan)
    requires WellSplit(g, e, ids, r) && SingleAssignment(g) && Runnable(g, r) && !NoStaleCopy(g, r)
    ensures !CopiesStayFresh(g, e, ids)
  {
    var nextId: nat :| CopiesOk(g, e, ids, r.splits, r.copies, nextId);
    var k, x, i, q, j := StaleCopyIsRead(g, e, ids, r);
    assert OwnBackend(g, ids, r.splits[k]);
    InputOfOneSplit(g, e, ids, r, nextId, k, x);
    StaleCopyIsAt(g, e, ids, r, k, x, i, q, j);
  }

  lemma StaleCopyIsAt(g: OpGraph, e: Backends, ids: seq<int>, r: SplitPlan, k: nat, x: nat, i: nat, q: nat, j: nat)
    requires WellSplit(g, e, ids, r) && |r.src| == |g.tensors| == |ids| && Stale(g, e, ids, r, k, x, i, q, j)
    requires IdOf(ids, g.nodes[q]) == r.splits[k].backend
    requires !MadeBy(r.splits, r.splits[k].inputs[x], r.splits[k].backend, k)
    ensures StaleAt(g, e, ids, i, q, j)
  {
    SplitAsScanned(g, e, ids, r, k, q);
  }

  lemma InputOfOneSplit(g: OpGraph, e: Backends, ids: seq<int>, r: SplitPlan, nextId: nat, k: nat, x: nat)
    requires CopiesOk(g, e, ids, r.splits, r.copies, nextId) && k < |r.splits| && x < |r.splits[k].inputs|
    ensures !MadeBy(r.splits, r.splits[k].inputs[x], r.splits[k].backend, k)
  {
    var t, b := r.splits[k].inputs[x], r.splits[k].backend;
    forall l, y | 0 <= l < k && r.splits[l].backend == b && 0 <= y < |r.splits[l].inputs|
      ensures r.splits[l].inputs[y] != t
    {
    }
  }

  lemma AtIsStale(g: OpGraph, e: Backends, ids: seq<int>, r: SplitPlan, i: nat, q: nat, j: nat)
    requires WellSplit(g, e, ids, r) && Runnable(g, r) && StaleAt(g, e, ids, i, q, j)
    ensures !NoStaleCopy(g, r)
  {
    var t := Src(g, q)[j];
    var k := SplitOf(g, ids, r.splits, 0, q);
    var s := r.splits[k];
    assert OwnBackend(g, ids, s);
    SplitAsScanned(g, e, ids, r, k, q);
    assert MadeInTime(g, e, ids, r.splits, k, q);
    assert t in s.inputs;
    var x :| 0 <= x < |s.inputs| && s.inputs[x] == t;
    assert !Settled(g, s.inputs[x], s.start, s.end);
  }

  lemma FreshOnBothSides(g: OpGraph, e: Backends, ids: seq<int>, r: SplitPlan)
    requires WellSplit(g, e, ids, r) && SingleAssignment(g) && Runnable(g, r)
    ensures NoStaleCopy(g, r) <==> CopiesStayFresh(g, e, ids)
  {
    if !NoStaleCopy(g, r) {
      StaleIsAt(g, e, ids, r);
    } else if !CopiesStayFresh(g, e, ids) {
      var i: nat, q: nat, j: nat :| StaleAt(g, e, ids, i, q, j);
      AtIsStale(g, e, ids, r, i, q, j);
    }
  }

  /** Splitting preserves the meaning of the graph, for every meaning of its operations and any initial
      contents, exactly when every computing node runs where it can access its memory and all sources
      that are not copied, and no copy is made in the split that computes what it copies. Both can be
      told from the graph, the backends and the ids. */
  lemma SplittingPreservesMeaning(g: OpGraph, e: Backends, ids: seq<int>, r: SplitPlan)
    requires WellSplit(g, e, ids, r) && SingleAssignment(g)
    ensures Runnable(g, r)
    ensures (forall m: Meaning, init: seq<int> :: SameResult(g, e, ids, r, m, init))
        <==> AllAccessible(g, e, ids) && CopiesStayFresh(g, e, ids)
  {
    WellSplitIsRunnable(g, e, ids, r);
    FreshOnBothSides(g, e, ids, r);
    if !AllAccessible(g, e, ids) {
      var q :| 0 <= q < |g.nodes| && Computing(g, g.nodes[q]) && !NodeAccessible(g, e, ids, q);
      InaccessibleShows(g, e, ids, r, q);
    } else if NoStaleCopy(g, r) {
      forall m: Meaning, init: seq<int> ensures SameResult(g, e, ids, r, m, init) {
        FreshCopiesSuffice(g, e, ids, r, m, init);
      }
    } else {
      var k, x, i, q, j := StaleCopyIsRead(g, e, ids, r);
      ReaderSeesRoot(g, Zeros(|g.tensors|), i, q, j);
      ReaderSeesStale(g, e, ids, r, k, x, i, q, j);
      assert !SameResult(g, e, ids, r, Probe(g.nodes[i], g.nodes[q], j), Zeros(|g.tensors|));
    }
  }

  // ---- from the user's settings

  /** It is enough that every view that a computing node reads has the backend of its root, whenever
      the root is computed by the graph, and that memory assigned beforehand can be accessed by the
      backend of the tensor that lives in it. */
  lemma ViewsAtHomeAreRight(g: OpGraph, e: Backends, ids: seq<int>, r: SplitPlan)
    requires WellSplit(g, e, ids, r) && SingleAssignment(g) && IdsOk(g, e, ids)
    requires forall i, j ::
        0 <= i < |g.nodes| && Computing(g, g.nodes[i]) && 0 <= j < |Src(g, i)| ==> SourceAtHome(g, e, ids, Src(g, i)[j])
    requires forall i :: 0 <= i < |g.nodes| && Computing(g, g.nodes[i]) ==> MemoryAtHome(g, e, ids, g.nodes[i])
    ensures AllAccessible(g, e, ids) && CopiesStayFresh(g, e, ids)
  {
    WellSplitIsRunnable(g, e, ids, r);
    FreshOnBothSides(g, e, ids, r);
    if !NoStaleCopy(g, r) {
      var k, x, i, q, j := StaleCopyIsRead(g, e, ids, r);
      assert SourceAtHome(g, e, ids, Src(g, q)[j]) && OwnBackend(g, ids, r.splits[k]);
      assert MemoryAtHome(g, e, ids, g.nodes[i]);
    }
    forall i | 0 <= i < |g.nodes| && Computing(g, g.nodes[i]) ensures NodeAccessible(g, e, ids, i) {
      var k := SplitOf(g, ids, r.splits, 0, i);
      assert OwnBackend(g, ids, r.splits[k]);
      NodeIsAtHome(g, e, ids, i);
    }
  }

  lemma NodeIsAtHome(g: OpGraph, e: Backends, ids: seq<int>, i: nat)
    requires SingleAssignment(g) && IdsOk(g, e, ids) && i < |g.nodes| && Computing(g, g.nodes[i])
    requires ids[g.nodes[i]] >= 0 && MemoryAtHome(g, e, ids, g.nodes[i])
    requires forall j :: 0 <= j < |Src(g, i)| ==> SourceAtHome(g, e, ids, Src(g, i)[j])
    ensures NodeAccessible(g, e, ids, i)
  {
    var b: nat := ids[g.nodes[i]];
    forall j | 0 <= j < |Src(g, i)| && !NeedsCopy(g, e, ids, Src(g, i)[j], b)
      ensures CanAccess(g, e, ids, Src(g, i)[j], b)
    {
      SourceIsReadable(g, e, ids, Src(g, i)[j], b);
    }
  }

  lemma SourceIsReadable(g: OpGraph, e: Backends, ids: seq<int>, t: nat, b: nat)
    requires IdsOk(g, e, ids) && t < |g.tensors| && SourceAtHome(g, e, ids, t) && !NeedsCopy(g, e, ids, t, b)
    requires SingleAssignment(g)
    ensures CanAccess(g, e, ids, t, b)
  {
  }

  /** If `t` has memory beforehand, its backend can access it. */
  ghost predicate MemoryAtHome(g: OpGraph, e: Backends, ids: seq<int>, t: nat)
    requires t < |g.tensors| == |ids|
  {
    MemoryOf(g, t).Some? ==> 0 <= ids[t] < |e.bufts| && e.supportsBuft(ids[t], MemoryOf(g, t).value.buft)
  }

  ghost predicate SourceAtHome(g: OpGraph, e: Backends, ids: seq<int>, t: nat)
    requires t < |g.tensors| == |ids|
  {
    ids[t] >= 0 && MemoryAtHome(g, e, ids, t) && (MemoryOf(g, t).None? ==> ids[t] == ids[Root(g, t)])
  }
}
