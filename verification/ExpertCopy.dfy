/** Copying only the experts that are used, in as few ranges as possible. */
module ExpertCopy {
  type Byte = bv8

  const MAX_PADDING := 512

  /** Experts `first` to `last` are used, and neither neighbour is. */
  ghost predicate MaximalRun(used: seq<bool>, first: nat, last: nat) {
    && first <= last < |used|
    && (forall i :: first <= i <= last ==> used[i])
    && (first > 0 ==> !used[first - 1])
    && (last + 1 < |used| ==> !used[last + 1])
  }

  ghost predicate InRun(runs: seq<(nat, nat)>, i: nat) {
    exists k :: 0 <= k < |runs| && runs[k].0 <= i <= runs[k].1
  }

  /** The runs are maximal, come in order, and hold every used expert below `n`. */
  ghost predicate RunsUpTo(used: seq<bool>, runs: seq<(nat, nat)>, n: nat) {
    && n <= |used|
    && (forall k :: 0 <= k < |runs| ==> MaximalRun(used, runs[k].0, runs[k].1) && runs[k].1 < n)
    && (forall k, l :: 0 <= k < l < |runs| ==> runs[k].1 < runs[l].0)
    && (forall i :: 0 <= i < n && used[i] ==> InRun(runs, i))
  }

  /** The end of the range copied for a run: some bytes of the next expert are taken along. */
  function RangeEnd(n: nat, size: nat, last: nat): nat {
    (last + 1) * size + (if last + 1 < n then (if size <= MAX_PADDING then size else MAX_PADDING) else 0)
  }

  ghost predicate Reached(n: nat, size: nat, runs: seq<(nat, nat)>, o: nat) {
    exists k :: 0 <= k < |runs| && InRange(n, size, runs[k], o)
  }

  ghost predicate InRange(n: nat, size: nat, run: (nat, nat), o: nat) {
    run.0 * size <= o < RangeEnd(n, size, run.1)
  }

  lemma RangesStayInside(n: nat, size: nat, last: nat)
    requires last < n
    ensures (last + 1) * size <= RangeEnd(n, size, last) <= n * size
  {
    var rest := n - last - 1;
    assert n * size == (last + 1) * size + rest * size;
    if rest > 0 { assert rest * size == size + (rest - 1) * size; }
  }

  lemma ExpertsAreApart(size: nat, i: nat, j: nat)
    requires i <= j
    ensures i * size <= j * size
  {
    assert j * size == i * size + (j - i) * size;
  }

  /** The bytes of one run, and a bit extra. */
  method CopyRun(n: nat, size: nat, src: seq<Byte>, dst: array<Byte>, first: nat, last: nat)
    requires |src| == dst.Length == n * size && first <= last < n
    modifies dst
    ensures forall o ::
        0 <= o < dst.Length ==> dst[o] == if InRange(n, size, (first, last), o) then src[o] else old(dst[o])
  {
    RangesStayInside(n, size, last);
    var lo, hi := first * size, RangeEnd(n, size, last);
    forall o | lo <= o < hi { dst[o] := src[o]; }
  }

  /** The experts that the routing table names. */
  method MarkUsed(ids: seq<nat>, n: nat) returns (used: array<bool>)
    requires forall k :: 0 <= k < |ids| ==> ids[k] < n
    ensures fresh(used) && used.Length == n
    ensures forall i :: 0 <= i < n ==> (used[i] <==> i in ids)
  {
    used := new bool[n](_ => false);
    var k := 0;
    while k < |ids|
      invariant k <= |ids| && forall i :: 0 <= i < n ==> (used[i] <==> i in ids[..k])
    {
      assert ids[..k + 1] == ids[..k] + [ids[k]];
      used[ids[k]] := true;
      k := k + 1;
    }
    assert ids[..k] == ids;
  }

  /** The bytes of the runs' ranges, and no others, have been copied. */
  ghost predicate Transferred(n: nat, size: nat, runs: seq<(nat, nat)>, src: seq<Byte>, was: seq<Byte>,
                              now: seq<Byte>) {
    |src| == |was| == |now| && forall o ::
        0 <= o < |now| ==> now[o] == if Reached(n, size, runs, o) then src[o] else was[o]
  }

  method Emit(n: nat, size: nat, src: seq<Byte>, dst: array<Byte>, first: nat, last: nat, ghost runs: seq<(nat, nat)>,
              ghost was: seq<Byte>)
    requires |src| == dst.Length == n * size && first <= last < n && Transferred(n, size, runs, src, was, dst[..])
    modifies dst
    ensures Transferred(n, size, runs + [(first, last)], src, was, dst[..])
  {
    CopyRun(n, size, src, dst, first, last);
    ReachedMore(n, size, runs, (first, last));
  }

  method FirstUsed(used: seq<bool>) returns (id: nat)
    requires exists i :: 0 <= i < |used| && used[i]
    ensures id < |used| && used[id] && forall i :: 0 <= i < id ==> !used[i]
  {
    id := 0;
    while !used[id]
      invariant id < |used| && forall i :: 0 <= i < id ==> !used[i]
      decreases |used| - id
    {
      id := id + 1;
    }
  }

  /** The whole copy. `runs` are the ranges that were transferred. */
  method CopyExperts(used: seq<bool>, size: nat, src: seq<Byte>, dst: array<Byte>) returns (ghost runs: seq<(nat, nat)>)
    requires |src| == dst.Length == |used| * size && exists i :: 0 <= i < |used| && used[i]
    modifies dst
    ensures RunsUpTo(used, runs, |used|)
    ensures Transferred(|used|, size, runs, src, old(dst[..]), dst[..])
    ensures forall i :: 0 <= i < |used| && used[i] ==> ExpertArrived(size, src, dst[..], i)
  {
    var n := |used|;
    var id := FirstUsed(used);
    var first: nat, last: nat := id, id;
    ghost var was := dst[..];
    runs := [];
    id := id + 1;
    while id < n
      invariant first <= last < id <= n && RunsUpTo(used, runs, first) && Current(used, first, last, id)
      invariant Transferred(n, size, runs, src, was, dst[..])
    {
      if used[id] {
        if id == last + 1 {
          last := id;
        } else {
          RunIsTaken(used, runs, first, last, id);
          Emit(n, size, src, dst, first, last, runs, was);
          runs := runs + [(first, last)];
          first, last := id, id;
        }
      }
      id := id + 1;
    }
    RunIsTaken(used, runs, first, last, n);
    Emit(n, size, src, dst, first, last, runs, was);
    runs := runs + [(first, last)];
    EveryUsedArrived(used, size, runs, src, was, dst[..]);
  }

  // ---- what the copy is for

  /** Marks the experts of the routing table and copies them. */
  method CopyRouted(ids: seq<nat>, n: nat, size: nat, src: seq<Byte>, dst: array<Byte>)
    requires |src| == dst.Length == n * size && |ids| > 0 && forall k :: 0 <= k < |ids| ==> ids[k] < n
    modifies dst
    ensures forall k :: 0 <= k < |ids| ==> ExpertArrived(size, src, dst[..], ids[k])
  {
    var used := MarkUsed(ids, n);
    assert used[..][ids[0]];
    ghost var runs := CopyExperts(used[..], size, src, dst);
    forall k | 0 <= k < |ids| ensures ExpertArrived(size, src, dst[..], ids[k]) { assert used[..][ids[k]]; }
  }

  /** The weights of expert `i`. */
  function Expert(weights: seq<Byte>, size: nat, i: nat): seq<Byte> {
    seq(size, o requires 0 <= o < size => if i * size + o < |weights| then weights[i * size + o] else 0)
  }

  /** The routed product: row `k` is made from the expert that the table names for it. */
  function Routed<R>(row: (nat, seq<Byte>) -> R, weights: seq<Byte>, size: nat, ids: seq<nat>): seq<R> {
    seq(|ids|, k requires 0 <= k < |ids| => row(k, Expert(weights, size, ids[k])))
  }

  /** After the copy the product is what it would be had the whole tensor been copied. */
  lemma RoutedProductIsTheSame<R>(row: (nat, seq<Byte>) -> R, ids: seq<nat>, size: nat, src: seq<Byte>, now: seq<Byte>)
    requires forall k :: 0 <= k < |ids| ==> ExpertArrived(size, src, now, ids[k])
    ensures Routed(row, now, size, ids) == Routed(row, src, size, ids)
  {
    forall k | 0 <= k < |ids| ensures Routed(row, now, size, ids)[k] == Routed(row, src, size, ids)[k] {
      ExpertIsTheSame(size, src, now, ids[k]);
    }
  }

  lemma ExpertIsTheSame(size: nat, src: seq<Byte>, now: seq<Byte>, i: nat)
    requires ExpertArrived(size, src, now, i)
    ensures Expert(now, size, i) == Expert(src, size, i)
  {
    forall o | 0 <= o < size ensures Expert(now, size, i)[o] == Expert(src, size, i)[o] {
      assert i * size <= i * size + o < (i + 1) * size;
    }
  }

  // ---- other readers of the copy

  /** A product read off the copy is right, whatever is done with the experts, exactly if every expert
      that its table names has arrived. */
  lemma ReaderNeedsItsExperts(size: nat, src: seq<Byte>, now: seq<Byte>, ids: seq<nat>)
    requires |src| == |now| && forall k :: 0 <= k < |ids| ==> (ids[k] + 1) * size <= |src|
    ensures (forall row: (nat, seq<Byte>) -> seq<Byte> :: Routed(row, now, size, ids) == Routed(row, src, size, ids))
        <==> forall k :: 0 <= k < |ids| ==> ExpertArrived(size, src, now, ids[k])
  {
    if forall k :: 0 <= k < |ids| ==> ExpertArrived(size, src, now, ids[k]) {
      forall row: (nat, seq<Byte>) -> seq<Byte>
        ensures Routed(row, now, size, ids) == Routed(row, src, size, ids)
      {
        RoutedProductIsTheSame(row, ids, size, src, now);
      }
    } else {
      var k :| 0 <= k < |ids| && !ExpertArrived(size, src, now, ids[k]);
      var o: nat :| ids[k] * size <= o < (ids[k] + 1) * size && now[o] != src[o];
      var row := (j: nat, w: seq<Byte>) => w;
      assert Expert(now, size, ids[k])[o - ids[k] * size] == now[o];
      assert Expert(src, size, ids[k])[o - ids[k] * size] == src[o];
      assert Routed(row, now, size, ids)[k] != Routed(row, src, size, ids)[k];
    }
  }

  /** The part of an unused expert that is transferred as padding of the one before it. */
  function Padding(used: seq<bool>, size: nat, i: nat): nat
    requires i < |used|
  {
    if i == 0 || !used[i - 1] then 0 else if size <= MAX_PADDING then size else MAX_PADDING
  }

  lemma UnusedIsReached(used: seq<bool>, size: nat, runs: seq<(nat, nat)>, i: nat, o: nat)
    requires RunsUpTo(used, runs, |used|) && i < |used| && !used[i] && i * size <= o < (i + 1) * size
    ensures Reached(|used|, size, runs, o) <==> o < i * size + Padding(used, size, i)
  {
    if o < i * size + Padding(used, size, i) {
      assert InRun(runs, i - 1);
      var k :| 0 <= k < |runs| && runs[k].0 <= i - 1 <= runs[k].1;
      assert MaximalRun(used, runs[k].0, runs[k].1);
      ExpertsAreApart(size, runs[k].0, i);
      assert InRange(|used|, size, runs[k], o);
    }
    forall k | 0 <= k < |runs| && InRange(|used|, size, runs[k], o) ensures o < i * size + Padding(used, size, i) {
      UnusedIsPadding(used, size, runs[k], i, o);
    }
  }

  lemma UnusedIsPadding(used: seq<bool>, size: nat, run: (nat, nat), i: nat, o: nat)
    requires MaximalRun(used, run.0, run.1) && i < |used| && !used[i] && i * size <= o < (i + 1) * size
    requires InRange(|used|, size, run, o)
    ensures o < i * size + Padding(used, size, i)
  {
    if run.0 > i {
      ExpertsAreApart(size, i + 1, run.0);
    } else if run.1 + 1 < i {
      RangeEndsBefore(|used|, size, run.1, i);
    }
  }

  lemma RangeEndsBefore(n: nat, size: nat, last: nat, i: nat)
    requires last + 1 < i
    ensures RangeEnd(n, size, last) <= i * size
  {
    ExpertsAreApart(size, last + 2, i);
    assert (last + 2) * size == (last + 1) * size + size;
  }

  /** An expert that the first reader does not use has arrived exactly if it was there before, except for
      the padding. So a copy that was made for one routing table is right for another only as far as the
      experts named there were used, or had been copied earlier. */
  lemma UnusedExpertStaysBehind(used: seq<bool>, size: nat, runs: seq<(nat, nat)>, src: seq<Byte>, was: seq<Byte>,
                                now: seq<Byte>, i: nat)
    requires RunsUpTo(used, runs, |used|) && Transferred(|used|, size, runs, src, was, now) && |src| == |used| * size
    requires i < |used| && !used[i]
    ensures (i + 1) * size <= |src|
    ensures ExpertArrived(size, src, now, i)
        <==> forall o: nat :: i * size + Padding(used, size, i) <= o < (i + 1) * size ==> was[o] == src[o]
  {
    ExpertsAreApart(size, i + 1, |used|);
    forall o: nat | i * size <= o < (i + 1) * size
      ensures now[o] == src[o] <==> o < i * size + Padding(used, size, i) || was[o] == src[o]
    {
      UnusedIsReached(used, size, runs, i, o);
    }
  }

  lemma EveryUsedArrived(used: seq<bool>, size: nat, runs: seq<(nat, nat)>, src: seq<Byte>, was: seq<Byte>,
                         now: seq<Byte>)
    requires RunsUpTo(used, runs, |used|) && Transferred(|used|, size, runs, src, was, now) && |src| == |used| * size
    ensures forall i :: 0 <= i < |used| && used[i] ==> ExpertArrived(size, src, now, i)
  {
    forall i | 0 <= i < |used| && used[i] ensures ExpertArrived(size, src, now, i) {
      forall o: nat | i * size <= o < (i + 1) * size ensures o < |src| && src[o] == now[o] {
        UsedExpertsAreReached(used, size, runs, i, o);
      }
    }
  }

  ghost predicate ExpertArrived(size: nat, src: seq<Byte>, dst: seq<Byte>, i: nat) {
    |src| == |dst| && forall o: nat :: i * size <= o < (i + 1) * size ==> o < |src| && dst[o] == src[o]
  }

  /** A run started at `first`, its last used expert before `id` is `last`. */
  ghost predicate Current(used: seq<bool>, first: nat, last: nat, id: nat) {
    && first <= last < id <= |used|
    && (forall i :: first <= i <= last ==> used[i]) && (forall i :: last < i < id ==> !used[i])
    && (first > 0 ==> !used[first - 1])
  }

  lemma RunIsTaken(used: seq<bool>, runs: seq<(nat, nat)>, first: nat, last: nat, id: nat)
    requires RunsUpTo(used, runs, first) && Current(used, first, last, id) && (id < |used| ==> last + 1 < id)
    ensures RunsUpTo(used, runs + [(first, last)], id)
  {
    var more := runs + [(first, last)];
    forall i | 0 <= i < id && used[i] ensures InRun(more, i) {
      if i < first {
        assert InRun(runs, i);
        var k :| 0 <= k < |runs| && runs[k].0 <= i <= runs[k].1;
        assert more[k] == runs[k];
      } else {
        assert more[|runs|] == (first, last);
      }
    }
  }

  lemma ReachedMore(n: nat, size: nat, runs: seq<(nat, nat)>, run: (nat, nat))
    ensures forall o: nat ::
        Reached(n, size, runs + [run], o) <==> Reached(n, size, runs, o) || InRange(n, size, run, o)
  {
    var more := runs + [run];
    forall o: nat ensures Reached(n, size, more, o) <==> Reached(n, size, runs, o) || InRange(n, size, run, o) {
      if InRange(n, size, run, o) { assert InRange(n, size, more[|runs|], o); }
      if Reached(n, size, runs, o) {
        var k :| 0 <= k < |runs| && InRange(n, size, runs[k], o);
        assert InRange(n, size, more[k], o);
      }
    }
  }

  /** Copying the ranges is at least copying every used expert by itself: each byte of each used
      expert is transferred. */
  lemma UsedExpertsAreReached(used: seq<bool>, size: nat, runs: seq<(nat, nat)>, i: nat, o: nat)
    requires RunsUpTo(used, runs, |used|) && i < |used| && used[i] && i * size <= o < (i + 1) * size
    ensures Reached(|used|, size, runs, o) && o < |used| * size
  {
    assert InRun(runs, i);
    var k :| 0 <= k < |runs| && runs[k].0 <= i <= runs[k].1;
    ExpertsAreApart(size, runs[k].0, i);
    ExpertsAreApart(size, i + 1, runs[k].1 + 1);
    ExpertsAreApart(size, i + 1, |used|);
    assert InRange(|used|, size, runs[k], o);
  }

  /** The set of used experts determines the runs. */
  lemma {:induction false} RunsAreUnique(used: seq<bool>, runs: seq<(nat, nat)>, runs': seq<(nat, nat)>)
    requires RunsUpTo(used, runs, |used|) && RunsUpTo(used, runs', |used|)
    ensures runs == runs'
  {
    assert |runs| <= |runs'| by { SameRuns(used, runs, runs', |runs|); }
    assert |runs'| <= |runs| by { SameRuns(used, runs', runs, |runs'|); }
    SameRuns(used, runs, runs', |runs|);
  }

  lemma {:induction false} SameRuns(used: seq<bool>, runs: seq<(nat, nat)>, runs': seq<(nat, nat)>, m: nat)
    requires RunsUpTo(used, runs, |used|) && RunsUpTo(used, runs', |used|) && m <= |runs|
    ensures m <= |runs'| && forall i :: 0 <= i < m ==> runs[i] == runs'[i]
  {
    if m > 0 {
      SameRuns(used, runs, runs', m - 1);
      NextRunAgrees(used, runs, runs', m - 1);
    }
  }

  lemma NextRunAgrees(used: seq<bool>, runs: seq<(nat, nat)>, runs': seq<(nat, nat)>, m: nat)
    requires RunsUpTo(used, runs, |used|) && RunsUpTo(used, runs', |used|) && m < |runs|
    requires m <= |runs'| && forall i :: 0 <= i < m ==> runs[i] == runs'[i]
    ensures m < |runs'| && runs[m] == runs'[m]
  {
    var a := runs[m];
    assert MaximalRun(used, a.0, a.1) && InRun(runs', a.0);
    var k :| 0 <= k < |runs'| && runs'[k].0 <= a.0 <= runs'[k].1;
    SameRunIfTheyMeet(used, a, runs'[k], a.0);
    NoRunBefore(used, runs, runs', m, k);
  }

  lemma NoRunBefore(used: seq<bool>, runs: seq<(nat, nat)>, runs': seq<(nat, nat)>, m: nat, k: nat)
    requires RunsUpTo(used, runs, |used|) && RunsUpTo(used, runs', |used|) && m < |runs| && k < |runs'|
    requires runs'[k] == runs[m]
    requires m <= |runs'| && forall i :: 0 <= i < m ==> runs[i] == runs'[i]
    ensures k == m
  {
    if m <= k {
      var b := runs'[m];
      assert MaximalRun(used, b.0, b.1) && InRun(runs, b.0);
      var l :| 0 <= l < |runs| && runs[l].0 <= b.0 <= runs[l].1;
      SameRunIfTheyMeet(used, b, runs[l], b.0);
    }
  }

  lemma SameRunIfTheyMeet(used: seq<bool>, a: (nat, nat), b: (nat, nat), i: nat)
    requires MaximalRun(used, a.0, a.1) && MaximalRun(used, b.0, b.1) && a.0 <= i <= a.1 && b.0 <= i <= b.1
    ensures a == b
  {
  }
}
