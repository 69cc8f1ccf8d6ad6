/** What the four sweeps of the second pass amount to, stated on the ids before and after them. */
module SchedSpread {
  import opened Wrappers
  import opened SchedGraphs
  import opened SchedAssign

  /** The backend of the lowest priority. */
  function Last(e: Backends): nat {
    |e.bufts| - 1
  }

  /** The pass may give node `k` an id: it computes and has none. */
  ghost predicate Open(g: OpGraph, ids: seq<int>, k: nat) {
    k < |g.nodes| && |ids| == |g.tensors| && Computing(g, g.nodes[k]) && ids[g.nodes[k]] == UNASSIGNED
  }

  /** Node `m` computes on `b`. */
  ghost predicate Placed(g: OpGraph, ids: seq<int>, m: nat, b: nat) {
    m < |g.nodes| && |ids| == |g.tensors| && Computing(g, g.nodes[m]) && ids[g.nodes[m]] == b
  }

  /** Every computing node strictly between `m` and `n` has no id. */
  ghost predicate Clear(g: OpGraph, ids: seq<int>, m: int, n: nat) {
    |ids| == |g.tensors|
    && forall p: nat :: m < p < n && p < |g.nodes| && Computing(g, g.nodes[p]) ==> ids[g.nodes[p]] == UNASSIGNED
  }

  /** `b` is the id of the closest computing node above `k` that has one. */
  ghost predicate FromAbove(g: OpGraph, ids: seq<int>, k: nat, m: nat, b: nat) {
    m < k && Placed(g, ids, m, b) && Clear(g, ids, m, k)
  }

  ghost predicate FromBelow(g: OpGraph, ids: seq<int>, k: nat, n: nat, b: nat) {
    k < n && Placed(g, ids, n, b) && Clear(g, ids, k, n)
  }

  // ---- the outcome

  /** Node `k` gets `b` from the closest assigned node above: it is not the last backend, and supports it. */
  ghost predicate TakesAbove(g: OpGraph, e: Backends, ids: seq<int>, k: nat, b: nat) {
    Open(g, ids, k) && b != Last(e) && e.supportsOp(b, g.nodes[k]) && exists m: nat :: FromAbove(g, ids, k, m, b)
  }

  /** None of the nodes strictly between `m` and `n` gets an id from above. */
  ghost predicate NoneFromAbove(g: OpGraph, e: Backends, ids: seq<int>, m: int, n: nat) {
    forall p: nat, b: nat :: m < p < n ==> !TakesAbove(g, e, ids, p, b)
  }

  /** Else it gets `b` from the closest assigned node below, in the same way, unless a node between them
      has got an id from above. */
  ghost predicate TakesBelow(g: OpGraph, e: Backends, ids: seq<int>, k: nat, b: nat) {
    Open(g, ids, k) && b != Last(e) && e.supportsOp(b, g.nodes[k])
    && exists n: nat :: FromBelow(g, ids, k, n, b) && NoneFromAbove(g, e, ids, k as int - 1, n)
  }

  ghost predicate NoneFromBelow(g: OpGraph, e: Backends, ids: seq<int>, m: int, n: nat) {
    forall p: nat, b: nat :: m < p < n ==> !TakesBelow(g, e, ids, p, b)
  }

  /** Else it gets the last backend from the closest assigned node above, unless a node between them has
      got an id from below. */
  ghost predicate LastAbove(g: OpGraph, e: Backends, ids: seq<int>, k: nat) {
    Open(g, ids, k) && e.supportsOp(Last(e), g.nodes[k])
    && exists m: nat :: FromAbove(g, ids, k, m, Last(e)) && NoneFromBelow(g, e, ids, m, k + 1)
  }

  /** Else it gets the last backend from the closest assigned node below, unless a node between them has
      got an id from above. */
  ghost predicate LastBelow(g: OpGraph, e: Backends, ids: seq<int>, k: nat) {
    Open(g, ids, k) && e.supportsOp(Last(e), g.nodes[k])
    && exists n: nat :: FromBelow(g, ids, k, n, Last(e)) && NoneFromAbove(g, e, ids, k as int - 1, n)
  }

  /** Node `k` gets `b` in one of the first `n` sweeps. */
  ghost predicate Gets(g: OpGraph, e: Backends, ids: seq<int>, k: nat, b: nat, n: nat) {
    || TakesAbove(g, e, ids, k, b) || (n > 1 && TakesBelow(g, e, ids, k, b))
    || (n > 2 && b == Last(e) && LastAbove(g, e, ids, k)) || (n > 3 && b == Last(e) && LastBelow(g, e, ids, k))
  }

  /** The ids after the first `n` sweeps: whoever gets nothing keeps none, and all others what they had. */
  ghost predicate SpreadBy(g: OpGraph, e: Backends, before: seq<int>, after: seq<int>, n: nat) {
    && |before| == |after| == |g.tensors| && OnlyFills(before, after)
    && (forall t :: 0 <= t < |after| && after[t] != before[t] ==> t in g.nodes)
    && forall k: nat :: k < |g.nodes| ==> SpreadAt(g, e, before, after, k, n)
  }

  ghost predicate SpreadAt(g: OpGraph, e: Backends, before: seq<int>, after: seq<int>, k: nat, n: nat)
    requires k < |g.nodes| && |before| == |after| == |g.tensors|
  {
    var id := after[g.nodes[k]];
    && (forall b: nat :: Gets(g, e, before, k, b, n) ==> id == b)
    && (id != before[g.nodes[k]] ==> 0 <= id && Gets(g, e, before, k, id, n))
  }

  // ---- one sweep

  /** A sweep gives every node without an id that of the closest assigned node above, if it supports it
      and the sweep carries it. */
  ghost predicate FillsFromAbove(g: OpGraph, e: Backends, before: seq<int>, after: seq<int>, skipCpu: bool) {
    && |before| == |after| == |g.tensors| && OnlyFills(before, after)
    && (forall t :: 0 <= t < |after| && after[t] != before[t] ==> t in g.nodes)
    && forall k: nat :: k < |g.nodes| ==> FilledAbove(g, e, before, after, k, skipCpu)
  }

  ghost predicate FilledAbove(g: OpGraph, e: Backends, before: seq<int>, after: seq<int>, k: nat, skipCpu: bool)
    requires k < |g.nodes| && |before| == |after| == |g.tensors|
  {
    var id := after[g.nodes[k]];
    && (forall m: nat, b: nat ::
          Open(g, before, k) && FromAbove(g, before, k, m, b) && e.supportsOp(b, g.nodes[k])
          && !(skipCpu && b == Last(e)) ==>
          id == b)
    && (id != before[g.nodes[k]] ==>
          Open(g, before, k) && 0 <= id && !(skipCpu && id == Last(e)) && e.supportsOp(id, g.nodes[k])
          && exists m: nat :: FromAbove(g, before, k, m, id))
  }

  ghost predicate FillsFromBelow(g: OpGraph, e: Backends, before: seq<int>, after: seq<int>, skipCpu: bool) {
    && |before| == |after| == |g.tensors| && OnlyFills(before, after)
    && (forall t :: 0 <= t < |after| && after[t] != before[t] ==> t in g.nodes)
    && forall k: nat :: k < |g.nodes| ==> FilledBelow(g, e, before, after, k, skipCpu)
  }

  ghost predicate FilledBelow(g: OpGraph, e: Backends, before: seq<int>, after: seq<int>, k: nat, skipCpu: bool)
    requires k < |g.nodes| && |before| == |after| == |g.tensors|
  {
    var id := after[g.nodes[k]];
    && (forall n: nat, b: nat ::
          Open(g, before, k) && FromBelow(g, before, k, n, b) && e.supportsOp(b, g.nodes[k])
          && !(skipCpu && b == Last(e)) ==>
          id == b)
    && (id != before[g.nodes[k]] ==>
          Open(g, before, k) && 0 <= id && !(skipCpu && id == Last(e)) && e.supportsOp(id, g.nodes[k])
          && exists n: nat :: FromBelow(g, before, k, n, id))
  }

  /** What is carried to node `k`, in terms of the ids before the sweep. */
  ghost predicate CarriedAbove(g: OpGraph, e: Backends, before: seq<int>, k: nat, c: int, skipCpu: bool) {
    && (c != UNASSIGNED ==> 0 <= c && !(skipCpu && c == Last(e)) && exists m: nat :: FromAbove(g, before, k, m, c))
    && (forall m: nat, b: nat ::
          FromAbove(g, before, k, m, b) ==> c == b || (c == UNASSIGNED && skipCpu && b == Last(e)))
  }

  ghost predicate CarriedBelow(g: OpGraph, e: Backends, before: seq<int>, k: nat, c: int, skipCpu: bool) {
    && (c != UNASSIGNED ==> 0 <= c && !(skipCpu && c == Last(e)) && exists n: nat :: FromBelow(g, before, k, n, c))
    && (forall n: nat, b: nat ::
          FromBelow(g, before, k, n, b) ==> c == b || (c == UNASSIGNED && skipCpu && b == Last(e)))
  }

  lemma {:induction false} AboveIsCarried(g: OpGraph, e: Backends, before: seq<int>, after: seq<int>, k: nat,
                                          skipCpu: bool)
    requires SweptDown(g, e, before, after, |g.nodes|, skipCpu) && k <= |g.nodes|
    ensures CarriedAbove(g, e, before, k, Above(g, e, after, k, skipCpu), skipCpu)
  {
    if k > 0 {
      AboveIsCarried(g, e, before, after, k - 1, skipCpu);
      assert TookFromAbove(g, e, before, after, k - 1, skipCpu);
      var c, t := Above(g, e, after, k - 1, skipCpu), g.nodes[k - 1];
      if !Computing(g, t) || before[t] == UNASSIGNED {
        assert Above(g, e, after, k, skipCpu) == c;
        PassedAbove(g, e, before, k - 1, c, skipCpu);
      } else {
        StartsAbove(g, e, before, k - 1, skipCpu);
        assert UNASSIGNED < before[t];
      }
    }
  }

  lemma ClearNext(g: OpGraph, ids: seq<int>, m: nat, k: nat)
    requires k < |g.nodes| && |ids| == |g.tensors| && (Computing(g, g.nodes[k]) ==> ids[g.nodes[k]] == UNASSIGNED)
    ensures Clear(g, ids, m, k) <==> Clear(g, ids, m, k + 1)
  {
  }

  lemma ClearFrom(g: OpGraph, ids: seq<int>, k: nat, n: nat)
    requires k + 1 < |g.nodes| && |ids| == |g.tensors|
    requires Computing(g, g.nodes[k + 1]) ==> ids[g.nodes[k + 1]] == UNASSIGNED
    ensures Clear(g, ids, k, n) <==> Clear(g, ids, k + 1, n)
  {
  }

  lemma PassedAbove(g: OpGraph, e: Backends, ids: seq<int>, k: nat, c: int, skipCpu: bool)
    requires k < |g.nodes| && |ids| == |g.tensors| && CarriedAbove(g, e, ids, k, c, skipCpu)
    requires Computing(g, g.nodes[k]) ==> ids[g.nodes[k]] == UNASSIGNED
    ensures CarriedAbove(g, e, ids, k + 1, c, skipCpu)
  {
    var next := k + 1;
    forall m: nat, b: nat ensures FromAbove(g, ids, k, m, b) <==> FromAbove(g, ids, next, m, b) {
      ClearNext(g, ids, m, k);
    }
  }

  lemma StartsAbove(g: OpGraph, e: Backends, ids: seq<int>, k: nat, skipCpu: bool)
    requires k < |g.nodes| && |ids| == |g.tensors| && Computing(g, g.nodes[k]) && ids[g.nodes[k]] >= 0
    ensures var id := ids[g.nodes[k]];
            CarriedAbove(g, e, ids, k + 1, if skipCpu && id == Last(e) then UNASSIGNED else id, skipCpu)
  {
    var next := k + 1;
    assert FromAbove(g, ids, next, k, ids[g.nodes[k]]);
    forall m: nat, b: nat | FromAbove(g, ids, next, m, b) ensures m == k && b == ids[g.nodes[k]] {}
  }

  lemma {:induction false} BelowIsCarried(g: OpGraph, e: Backends, before: seq<int>, after: seq<int>, k: nat,
                                          skipCpu: bool)
    requires SweptUp(g, e, before, after, 0, skipCpu) && k < |g.nodes|
    ensures CarriedBelow(g, e, before, k, Below(g, e, after, k, skipCpu), skipCpu)
    decreases |g.nodes| - k
  {
    if k + 1 < |g.nodes| {
      BelowIsCarried(g, e, before, after, k + 1, skipCpu);
      assert TookFromBelow(g, e, before, after, k + 1, skipCpu);
      var c, t := Below(g, e, after, k + 1, skipCpu), g.nodes[k + 1];
      if !Computing(g, t) || before[t] == UNASSIGNED {
        assert Below(g, e, after, k, skipCpu) == c;
        PassedBelow(g, e, before, k, c, skipCpu);
      } else {
        StartsBelow(g, e, before, k, skipCpu);
        assert UNASSIGNED < before[t];
      }
    }
  }

  lemma PassedBelow(g: OpGraph, e: Backends, ids: seq<int>, k: nat, c: int, skipCpu: bool)
    requires k + 1 < |g.nodes| && |ids| == |g.tensors| && CarriedBelow(g, e, ids, k + 1, c, skipCpu)
    requires Computing(g, g.nodes[k + 1]) ==> ids[g.nodes[k + 1]] == UNASSIGNED
    ensures CarriedBelow(g, e, ids, k, c, skipCpu)
  {
    var next := k + 1;
    forall n: nat, b: nat ensures FromBelow(g, ids, next, n, b) <==> FromBelow(g, ids, k, n, b) {
      ClearFrom(g, ids, k, n);
    }
  }

  lemma StartsBelow(g: OpGraph, e: Backends, ids: seq<int>, k: nat, skipCpu: bool)
    requires k + 1 < |g.nodes| && |ids| == |g.tensors|
    requires Computing(g, g.nodes[k + 1]) && ids[g.nodes[k + 1]] >= 0
    ensures var id := ids[g.nodes[k + 1]];
            CarriedBelow(g, e, ids, k, if skipCpu && id == Last(e) then UNASSIGNED else id, skipCpu)
  {
    assert FromBelow(g, ids, k, k + 1, ids[g.nodes[k + 1]]);
    forall n: nat, b: nat | FromBelow(g, ids, k, n, b) ensures n == k + 1 && b == ids[g.nodes[k + 1]] {}
  }

  lemma SweepDownFills(g: OpGraph, e: Backends, before: seq<int>, after: seq<int>, skipCpu: bool)
    requires SweptDown(g, e, before, after, |g.nodes|, skipCpu)
    ensures FillsFromAbove(g, e, before, after, skipCpu)
  {
    forall k: nat | k < |g.nodes| ensures FilledAbove(g, e, before, after, k, skipCpu) {
      AboveIsCarried(g, e, before, after, k, skipCpu);
      assert TookFromAbove(g, e, before, after, k, skipCpu);
    }
  }

  lemma SweepUpFills(g: OpGraph, e: Backends, before: seq<int>, after: seq<int>, skipCpu: bool)
    requires SweptUp(g, e, before, after, 0, skipCpu)
    ensures FillsFromBelow(g, e, before, after, skipCpu)
  {
    forall k: nat | k < |g.nodes| ensures FilledBelow(g, e, before, after, k, skipCpu) {
      BelowIsCarried(g, e, before, after, k, skipCpu);
      assert TookFromBelow(g, e, before, after, k, skipCpu);
    }
  }

  // ---- closest nodes

  lemma AboveIsUnique(g: OpGraph, ids: seq<int>, k: nat, m: nat, b: nat, m': nat, b': nat)
    requires k <= |g.nodes| && FromAbove(g, ids, k, m, b) && FromAbove(g, ids, k, m', b')
    ensures m == m' && b == b'
  {
  }

  lemma BelowIsUnique(g: OpGraph, ids: seq<int>, k: nat, n: nat, b: nat, n': nat, b': nat)
    requires FromBelow(g, ids, k, n, b) && FromBelow(g, ids, k, n', b')
    ensures n == n' && b == b'
  {
  }

  /** What is closest above an open node is so above any node that only open ones separate it from. */
  lemma SameAbove(g: OpGraph, ids: seq<int>, p: nat, k: nat, m: nat, b: nat)
    requires Open(g, ids, p) && FromAbove(g, ids, p, m, b) && m < k
    requires p < k ==> Clear(g, ids, p, k)
    ensures FromAbove(g, ids, k, m, b)
  {
  }

  lemma SameBelow(g: OpGraph, ids: seq<int>, p: nat, k: nat, n: nat, b: nat)
    requires Open(g, ids, p) && FromBelow(g, ids, p, n, b) && k < n
    requires k < p ==> Clear(g, ids, k, p)
    ensures FromBelow(g, ids, k, n, b)
  {
  }

  /** Where nobody has an id later, nobody had one before. */
  lemma ClearBefore(g: OpGraph, before: seq<int>, after: seq<int>, m: int, n: nat)
    requires OnlyFills(before, after) && Clear(g, after, m, n)
    ensures Clear(g, before, m, n)
  {
    forall p: nat | m < p < n && p < |g.nodes| && Computing(g, g.nodes[p])
      ensures before[g.nodes[p]] == UNASSIGNED
    {
      assert after[g.nodes[p]] == UNASSIGNED;
    }
  }

  /** A node without an id has got nothing so far. */
  lemma GotNothing(g: OpGraph, e: Backends, before: seq<int>, after: seq<int>, k: nat, b: nat, n: nat)
    requires SpreadBy(g, e, before, after, n) && k < |g.nodes| && after[g.nodes[k]] == UNASSIGNED
    ensures !Gets(g, e, before, k, b, n)
  {
    assert SpreadAt(g, e, before, after, k, n);
  }

  // ---- the second sweep

  /** A node without an id, below which `b` is closest after the first sweep, takes it. */
  lemma SecondGets(g: OpGraph, e: Backends, before: seq<int>, s1: seq<int>, k: nat, n: nat, b: nat)
    requires SpreadBy(g, e, before, s1, 1) && Open(g, s1, k) && FromBelow(g, s1, k, n, b)
    requires b != Last(e) && e.supportsOp(b, g.nodes[k])
    ensures TakesBelow(g, e, before, k, b)
  {
    ClearBefore(g, before, s1, k, n);
    assert SpreadAt(g, e, before, s1, k, 1) && SpreadAt(g, e, before, s1, n, 1);
    if before[g.nodes[n]] == b {
      forall p: nat, c: nat | k as int - 1 < p < n ensures !TakesAbove(g, e, before, p, c) {
        if Open(g, before, p) { GotNothing(g, e, before, s1, p, c, 1); }
      }
      assert FromBelow(g, before, k, n, b);
    } else {
      assert Gets(g, e, before, n, b, 1);
      var m: nat :| FromAbove(g, before, n, m, b);
      assert s1[g.nodes[m]] == b;
      GotNothing(g, e, before, s1, k, b, 1);
      SameAbove(g, before, n, k, m, b);
      assert false;
    }
  }

  lemma SecondOffers(g: OpGraph, e: Backends, before: seq<int>, s1: seq<int>, k: nat, b: nat)
    requires SpreadBy(g, e, before, s1, 1) && TakesBelow(g, e, before, k, b)
    ensures Open(g, s1, k) && exists n: nat :: FromBelow(g, s1, k, n, b)
  {
    var n: nat :| FromBelow(g, before, k, n, b) && NoneFromAbove(g, e, before, k as int - 1, n);
    forall p: nat | k <= p < n && p < |g.nodes| && Computing(g, g.nodes[p])
      ensures s1[g.nodes[p]] == UNASSIGNED
    {
      assert SpreadAt(g, e, before, s1, p, 1);
    }
    assert FromBelow(g, s1, k, n, b);
  }

  lemma SecondSweep(g: OpGraph, e: Backends, before: seq<int>, s1: seq<int>, s2: seq<int>)
    requires SpreadBy(g, e, before, s1, 1) && FillsFromBelow(g, e, s1, s2, true)
    ensures SpreadBy(g, e, before, s2, 2)
  {
    forall k: nat | k < |g.nodes| ensures SpreadAt(g, e, before, s2, k, 2) {
      assert SpreadAt(g, e, before, s1, k, 1) && FilledBelow(g, e, s1, s2, k, true);
      var id := s2[g.nodes[k]];
      forall b: nat | Gets(g, e, before, k, b, 2) ensures id == b {
        if TakesAbove(g, e, before, k, b) { assert Gets(g, e, before, k, b, 1); }
        else { SecondOffers(g, e, before, s1, k, b); }
      }
      if id != s1[g.nodes[k]] {
        var n: nat :| FromBelow(g, s1, k, n, id);
        SecondGets(g, e, before, s1, k, n, id);
      } else if id != before[g.nodes[k]] {
        assert Gets(g, e, before, k, id, 1);
      }
    }
  }

  // ---- the third sweep

  /** Only the last backend is handed on by the third sweep. */
  lemma ThirdGets(g: OpGraph, e: Backends, before: seq<int>, s2: seq<int>, k: nat, m: nat, b: nat)
    requires SpreadBy(g, e, before, s2, 2) && Open(g, s2, k) && FromAbove(g, s2, k, m, b) && e.supportsOp(b, g.nodes[k])
    ensures b == Last(e) && LastAbove(g, e, before, k)
  {
    ClearBefore(g, before, s2, m, k);
    assert SpreadAt(g, e, before, s2, m, 2);
    GotNothing(g, e, before, s2, k, b, 2);
    if before[g.nodes[m]] == b {
      assert FromAbove(g, before, k, m, b);
      forall p: nat, c: nat | m < p < k + 1 ensures !TakesBelow(g, e, before, p, c) {
        if Open(g, before, p) { GotNothing(g, e, before, s2, p, c, 2); }
      }
    } else {
      ThirdIsOver(g, e, before, s2, k, m, b);
      assert false;
    }
  }

  /** What a node has got from the first two sweeps is nothing for those next to it. */
  lemma ThirdIsOver(g: OpGraph, e: Backends, before: seq<int>, s2: seq<int>, k: nat, m: nat, b: nat)
    requires SpreadBy(g, e, before, s2, 2) && Open(g, s2, k) && FromAbove(g, s2, k, m, b) && e.supportsOp(b, g.nodes[k])
    ensures !Gets(g, e, before, m, b, 2)
  {
    ClearBefore(g, before, s2, m, k);
    GotNothing(g, e, before, s2, k, b, 2);
    if TakesAbove(g, e, before, m, b) {
      var l: nat :| FromAbove(g, before, m, l, b);
      SameAbove(g, before, m, k, l, b);
      assert false;
    }
    if TakesBelow(g, e, before, m, b) {
      var n: nat :| FromBelow(g, before, m, n, b) && NoneFromAbove(g, e, before, m as int - 1, n);
      assert s2[g.nodes[n]] == b;
      SameBelow(g, before, m, k, n, b);
      assert NoneFromAbove(g, e, before, k as int - 1, n);
      assert false;
    }
  }

  lemma ThirdOffers(g: OpGraph, e: Backends, before: seq<int>, s2: seq<int>, k: nat)
    requires SpreadBy(g, e, before, s2, 2) && LastAbove(g, e, before, k)
    ensures Open(g, s2, k) && exists m: nat :: FromAbove(g, s2, k, m, Last(e))
  {
    var m: nat :| FromAbove(g, before, k, m, Last(e)) && NoneFromBelow(g, e, before, m, k + 1);
    forall p: nat | m < p <= k && p < |g.nodes| && Computing(g, g.nodes[p])
      ensures s2[g.nodes[p]] == UNASSIGNED
    {
      NotAboveLast(g, e, before, k, m, p);
      assert SpreadAt(g, e, before, s2, p, 2);
    }
    assert FromAbove(g, s2, k, m, Last(e));
  }

  /** Behind a node on the last backend nobody takes an id from above in the first sweep. */
  lemma NotAboveLast(g: OpGraph, e: Backends, ids: seq<int>, k: nat, m: nat, p: nat)
    requires FromAbove(g, ids, k, m, Last(e)) && m < p <= k < |g.nodes|
    ensures forall b: nat :: !TakesAbove(g, e, ids, p, b)
  {
    forall b: nat ensures !TakesAbove(g, e, ids, p, b) {
      if TakesAbove(g, e, ids, p, b) {
        var l: nat :| FromAbove(g, ids, p, l, b);
        assert FromAbove(g, ids, p, m, Last(e));
        AboveIsUnique(g, ids, p, l, b, m, Last(e));
        assert false;
      }
    }
  }

  lemma ThirdSweep(g: OpGraph, e: Backends, before: seq<int>, s2: seq<int>, s3: seq<int>)
    requires SpreadBy(g, e, before, s2, 2) && FillsFromAbove(g, e, s2, s3, false)
    ensures SpreadBy(g, e, before, s3, 3)
  {
    forall k: nat | k < |g.nodes| ensures SpreadAt(g, e, before, s3, k, 3) {
      assert SpreadAt(g, e, before, s2, k, 2) && FilledAbove(g, e, s2, s3, k, false);
      var id := s3[g.nodes[k]];
      forall b: nat | Gets(g, e, before, k, b, 3) ensures id == b {
        if Gets(g, e, before, k, b, 2) { assert s2[g.nodes[k]] == b; }
        else { ThirdOffers(g, e, before, s2, k); }
      }
      if id != s2[g.nodes[k]] {
        var m: nat :| FromAbove(g, s2, k, m, id);
        ThirdGets(g, e, before, s2, k, m, id);
      } else if id != before[g.nodes[k]] {
        assert Gets(g, e, before, k, id, 2);
      }
    }
  }

  // ---- the fourth sweep

  lemma FourthGets(g: OpGraph, e: Backends, before: seq<int>, s3: seq<int>, k: nat, n: nat, b: nat)
    requires SpreadBy(g, e, before, s3, 3) && Open(g, s3, k) && FromBelow(g, s3, k, n, b) && e.supportsOp(b, g.nodes[k])
    ensures b == Last(e) && LastBelow(g, e, before, k)
  {
    ClearBefore(g, before, s3, k, n);
    assert SpreadAt(g, e, before, s3, n, 3);
    GotNothing(g, e, before, s3, k, b, 3);
    if before[g.nodes[n]] == b {
      assert FromBelow(g, before, k, n, b);
      forall p: nat, c: nat | k as int - 1 < p < n ensures !TakesAbove(g, e, before, p, c) {
        if Open(g, before, p) { GotNothing(g, e, before, s3, p, c, 3); }
      }
      assert NoneFromAbove(g, e, before, k as int - 1, n);
    } else {
      FourthIsOver(g, e, before, s3, k, n, b);
      assert false;
    }
  }

  lemma FourthIsOver(g: OpGraph, e: Backends, before: seq<int>, s3: seq<int>, k: nat, n: nat, b: nat)
    requires SpreadBy(g, e, before, s3, 3) && Open(g, s3, k) && FromBelow(g, s3, k, n, b) && e.supportsOp(b, g.nodes[k])
    ensures !Gets(g, e, before, n, b, 3)
  {
    ClearBefore(g, before, s3, k, n);
    GotNothing(g, e, before, s3, k, b, 3);
    if TakesAbove(g, e, before, n, b) {
      var m: nat :| FromAbove(g, before, n, m, b);
      assert s3[g.nodes[m]] == b;
      SameAbove(g, before, n, k, m, b);
      assert false;
    }
    if TakesBelow(g, e, before, n, b) {
      var l: nat :| FromBelow(g, before, n, l, b) && NoneFromAbove(g, e, before, n as int - 1, l);
      SameBelow(g, before, n, k, l, b);
      NobodyTook(g, e, before, s3, k, n, l);
      assert false;
    }
    if b == Last(e) && LastAbove(g, e, before, n) {
      var m: nat :| FromAbove(g, before, n, m, b) && NoneFromBelow(g, e, before, m, n + 1);
      SameAbove(g, before, n, k, m, b);
      assert false;
    }
  }

  lemma NobodyTook(g: OpGraph, e: Backends, before: seq<int>, s3: seq<int>, k: nat, n: nat, l: nat)
    requires SpreadBy(g, e, before, s3, 3) && Open(g, s3, k) && Clear(g, s3, k, n) && k < n < |g.nodes|
    requires NoneFromAbove(g, e, before, n as int - 1, l)
    ensures NoneFromAbove(g, e, before, k as int - 1, l)
  {
    forall p: nat, c: nat | k as int - 1 < p < l ensures !TakesAbove(g, e, before, p, c) {
      if p < n && Open(g, before, p) { GotNothing(g, e, before, s3, p, c, 3); }
    }
  }

  lemma FourthOffers(g: OpGraph, e: Backends, before: seq<int>, s3: seq<int>, k: nat)
    requires SpreadBy(g, e, before, s3, 3) && LastBelow(g, e, before, k) && s3[g.nodes[k]] == UNASSIGNED
    ensures exists n: nat :: FromBelow(g, s3, k, n, Last(e))
  {
    var n: nat :| FromBelow(g, before, k, n, Last(e)) && NoneFromAbove(g, e, before, k as int - 1, n);
    forall p: nat | k <= p < n && p < |g.nodes| && Computing(g, g.nodes[p])
      ensures s3[g.nodes[p]] == UNASSIGNED
    {
      forall b: nat ensures !Gets(g, e, before, p, b, 3) { NotBelowLast(g, e, before, s3, k, n, p, b); }
      assert SpreadAt(g, e, before, s3, p, 3);
    }
    assert FromBelow(g, s3, k, n, Last(e));
  }

  /** Nodes between `k`, which has got nothing, and a node on the last backend below have got nothing, too. */
  lemma NotBelowLast(g: OpGraph, e: Backends, before: seq<int>, s3: seq<int>, k: nat, n: nat, p: nat, b: nat)
    requires SpreadBy(g, e, before, s3, 3) && LastBelow(g, e, before, k) && s3[g.nodes[k]] == UNASSIGNED
    requires FromBelow(g, before, k, n, Last(e)) && NoneFromAbove(g, e, before, k as int - 1, n) && k <= p < n
    ensures !Gets(g, e, before, p, b, 3)
  {
    GotNothing(g, e, before, s3, k, b, 3);
    forall q: nat, c: nat | k <= q < n ensures !TakesBelow(g, e, before, q, c) {
      NoneBelowBefore(g, e, before, k, n, q, c);
    }
    if LastAbove(g, e, before, p) {
      var m: nat :| FromAbove(g, before, p, m, Last(e)) && NoneFromBelow(g, e, before, m, p + 1);
      PlacedIsOutside(g, before, k, n, m, Last(e));
      SameAbove(g, before, p, k, m, Last(e));
      assert NoneFromBelow(g, e, before, m, k + 1);
      GotNothing(g, e, before, s3, k, Last(e), 3);
      assert false;
    }
  }

  lemma PlacedIsOutside(g: OpGraph, ids: seq<int>, k: nat, n: nat, m: nat, b: nat)
    requires Open(g, ids, k) && Clear(g, ids, k, n) && Placed(g, ids, m, b) && m < n
    ensures m < k
  {
  }

  /** Above a node on the last backend nobody takes an id from below in the second sweep. */
  lemma NoneBelowBefore(g: OpGraph, e: Backends, ids: seq<int>, k: nat, n: nat, q: nat, c: nat)
    requires FromBelow(g, ids, k, n, Last(e)) && k <= q < n
    ensures !TakesBelow(g, e, ids, q, c)
  {
    if TakesBelow(g, e, ids, q, c) {
      var l: nat :| FromBelow(g, ids, q, l, c) && NoneFromAbove(g, e, ids, q as int - 1, l);
      assert FromBelow(g, ids, q, n, Last(e));
      BelowIsUnique(g, ids, q, l, c, n, Last(e));
      assert false;
    }
  }

  lemma FourthSweep(g: OpGraph, e: Backends, before: seq<int>, s3: seq<int>, after: seq<int>)
    requires SpreadBy(g, e, before, s3, 3) && FillsFromBelow(g, e, s3, after, false)
    ensures SpreadBy(g, e, before, after, 4)
  {
    forall k: nat | k < |g.nodes| ensures SpreadAt(g, e, before, after, k, 4) {
      assert SpreadAt(g, e, before, s3, k, 3) && FilledBelow(g, e, s3, after, k, false);
      var id := after[g.nodes[k]];
      forall b: nat | Gets(g, e, before, k, b, 4) ensures id == b {
        if Gets(g, e, before, k, b, 3) { assert s3[g.nodes[k]] == b; }
        else { LastFromBelow(g, e, before, s3, after, k); }
      }
      if id != s3[g.nodes[k]] {
        var n: nat :| FromBelow(g, s3, k, n, id);
        FourthGets(g, e, before, s3, k, n, id);
      } else if id != before[g.nodes[k]] {
        assert Gets(g, e, before, k, id, 3);
      }
    }
  }

  /** Whoever is left to the fourth sweep gets the last backend, or has it already. */
  lemma LastFromBelow(g: OpGraph, e: Backends, before: seq<int>, s3: seq<int>, after: seq<int>, k: nat)
    requires SpreadBy(g, e, before, s3, 3) && FillsFromBelow(g, e, s3, after, false) && LastBelow(g, e, before, k)
    ensures after[g.nodes[k]] == Last(e)
  {
    assert SpreadAt(g, e, before, s3, k, 3) && FilledBelow(g, e, s3, after, k, false);
    if s3[g.nodes[k]] == UNASSIGNED {
      FourthOffers(g, e, before, s3, k);
    } else {
      var id := s3[g.nodes[k]];
      assert Gets(g, e, before, k, id, 3);
      var n: nat :| FromBelow(g, before, k, n, Last(e)) && NoneFromAbove(g, e, before, k as int - 1, n);
      NoneBelowBefore(g, e, before, k, n, k, id);
    }
  }

  // ---- the pass

  /** The ids after pass 2 are determined by those before it: a node takes the id of the closest assigned
      node above, else below, which is not the last backend; else the last backend from above or below. */
  lemma ExpandedIsSpread(g: OpGraph, e: Backends, before: seq<int>, after: seq<int>)
    requires Expanded(g, e, before, after)
    ensures SpreadBy(g, e, before, after, 4)
  {
    var s1: seq<int>, s2: seq<int>, s3: seq<int> :|
      && SweptDown(g, e, before, s1, |g.nodes|, true) && SweptUp(g, e, s1, s2, 0, true)
      && SweptDown(g, e, s2, s3, |g.nodes|, false) && SweptUp(g, e, s3, after, 0, false);
    SweepDownFills(g, e, before, s1, true);
    FirstSweep(g, e, before, s1);
    SweepUpFills(g, e, s1, s2, true);
    SecondSweep(g, e, before, s1, s2);
    SweepDownFills(g, e, s2, s3, false);
    ThirdSweep(g, e, before, s2, s3);
    SweepUpFills(g, e, s3, after, false);
    FourthSweep(g, e, before, s3, after);
  }

  lemma FirstSweep(g: OpGraph, e: Backends, before: seq<int>, s1: seq<int>)
    requires FillsFromAbove(g, e, before, s1, true)
    ensures SpreadBy(g, e, before, s1, 1)
  {
    forall k: nat | k < |g.nodes| ensures SpreadAt(g, e, before, s1, k, 1) {
      assert FilledAbove(g, e, before, s1, k, true);
    }
  }

  /** A node that is filled in takes the id of a node from which only nodes without an id separate it. */
  lemma FilledFromClosest(g: OpGraph, e: Backends, before: seq<int>, after: seq<int>, k: nat)
    requires Expanded(g, e, before, after) && k < |g.nodes| && |before| == |after| == |g.tensors|
    requires after[g.nodes[k]] != before[g.nodes[k]]
    ensures Open(g, before, k) && 0 <= after[g.nodes[k]] < |e.bufts| && e.supportsOp(after[g.nodes[k]], g.nodes[k])
    ensures exists m: nat ::
        FromAbove(g, before, k, m, after[g.nodes[k]]) || FromBelow(g, before, k, m, after[g.nodes[k]])
  {
    ExpandedIsSpread(g, e, before, after);
    assert SpreadAt(g, e, before, after, k, 4);
  }

  /** There is nothing else the pass could have done. */
  lemma SpreadIsUnique(g: OpGraph, e: Backends, before: seq<int>, after: seq<int>, after': seq<int>)
    requires SpreadBy(g, e, before, after, 4) && SpreadBy(g, e, before, after', 4)
    ensures after == after'
  {
    forall t | 0 <= t < |after| ensures after[t] == after'[t] {
      if t in g.nodes {
        var k: nat :| k < |g.nodes| && g.nodes[k] == t;
        assert SpreadAt(g, e, before, after, k, 4) && SpreadAt(g, e, before, after', k, 4);
        if after[t] != before[t] { assert Gets(g, e, before, k, after[t], 4); }
        if after'[t] != before[t] { assert Gets(g, e, before, k, after'[t], 4); }
      }
    }
  }
}
