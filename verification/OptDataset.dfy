/** The dataset of the training driver: a table of shards that is shuffled in place, and batches cut
    from it. */
module OptDataset {
  /** A batch is the list of the shards it consists of. */
  type Batch = seq<nat>

  /** Every one of the `n` shards once. */
  ghost predicate Permutation(p: seq<nat>, n: nat) {
    |p| == n && multiset(p) == multiset(Identity(n))
  }

  function Identity(n: nat): (s: seq<nat>)
    ensures |s| == n && forall i :: 0 <= i < n ==> s[i] == i
  {
    seq(n, i => i)
  }

  lemma SwapKeepsElements(s: seq<nat>, i: nat, j: nat)
    requires i <= j < |s|
    ensures multiset(s[i := s[j]][j := s[i]]) == multiset(s)
  {
  }

  // ---- orders

  function Swapped(p: seq<nat>, i: nat, j: nat): (r: seq<nat>)
    requires i < |p| && j < |p|
    ensures |r| == |p|
  {
    p[i := p[j]][j := p[i]]
  }

  /** The table after the first `i` places have each been swapped with the drawn place, which is not
      behind them. */
  function Shuffled(p: seq<nat>, draws: seq<nat>, i: nat): (r: seq<nat>)
    requires i <= |p| && i <= |draws|
    ensures |r| == |p|
  {
    if i <= 1 then p else Swapped(Shuffled(p, draws, i - 1), i - 1, draws[i - 1] % i)
  }

  /** One draw for each of `n` places, none of a later place. */
  predicate Drawn(draws: seq<nat>, n: nat) {
    |draws| == n && forall i :: 0 <= i < n ==> draws[i] <= i
  }

  ghost predicate DistinctItems(p: seq<nat>) {
    forall i, j :: 0 <= i < j < |p| ==> p[i] != p[j]
  }

  lemma {:induction false} ShuffledKeeps(p: seq<nat>, draws: seq<nat>, i: nat)
    requires i <= |p| && i <= |draws|
    ensures Shuffled(p, draws, i)[i..] == p[i..]
    ensures multiset(Shuffled(p, draws, i)[..i]) == multiset(p[..i])
  {
    if i > 1 {
      ShuffledKeeps(p, draws, i - 1);
      OneMorePlace(p, Shuffled(p, draws, i - 1), i);
      SwapInside(Shuffled(p, draws, i - 1), i, draws[i - 1] % i);
    }
  }

  lemma OneMorePlace(p: seq<nat>, was: seq<nat>, i: nat)
    requires 0 < i <= |p| == |was| && was[i - 1..] == p[i - 1..] && multiset(was[..i - 1]) == multiset(p[..i - 1])
    ensures was[i..] == p[i..] && multiset(was[..i]) == multiset(p[..i])
  {
    assert was[i - 1..][1..] == was[i..] && p[i - 1..][1..] == p[i..] && was[i - 1..][0] == p[i - 1..][0];
    assert was[..i] == was[..i - 1] + [was[i - 1]] && p[..i] == p[..i - 1] + [p[i - 1]];
  }

  lemma SwapInside(was: seq<nat>, i: nat, j: nat)
    requires j < i <= |was|
    ensures Swapped(was, i - 1, j)[i..] == was[i..] && multiset(Swapped(was, i - 1, j)[..i]) == multiset(was[..i])
  {
    var first := was[..i];
    SwapKeepsElements(first, j, i - 1);
    assert Swapped(was, i - 1, j)[..i] == first[j := first[i - 1]][i - 1 := first[j]];
    assert Swapped(was, i - 1, j)[i..] == was[i..];
  }

  lemma ShuffledPermutation(p: seq<nat>, draws: seq<nat>, n: nat, total: nat)
    requires n <= |p| && n <= |draws| && Permutation(p, total)
    ensures var q := Shuffled(p, draws, n);
            Permutation(q, total) && q[n..] == p[n..] && multiset(q[..n]) == multiset(p[..n])
  {
    var q := Shuffled(p, draws, n);
    ShuffledKeeps(p, draws, n);
    assert p == p[..n] + p[n..] && q == q[..n] + q[n..];
  }

  /** Only the first draws, and the first places, matter. */
  lemma {:induction false} ShuffledOfPrefix(p: seq<nat>, draws: seq<nat>, m: nat, n: nat, i: nat)
    requires i <= m <= |p| && i <= n <= |draws|
    ensures Shuffled(p, draws, i) == Shuffled(p[..m], draws[..n], i) + p[m..]
  {
    if i > 1 {
      ShuffledOfPrefix(p, draws, m, n, i - 1);
    } else {
      assert p == p[..m] + p[m..];
    }
  }

  lemma SwapTwice(p: seq<nat>, i: nat, j: nat)
    requires i < |p| && j < |p|
    ensures Swapped(Swapped(p, i, j), i, j) == p
  {
  }

  lemma SameLength(p: seq<nat>, q: seq<nat>)
    requires multiset(p) == multiset(q)
    ensures |p| == |q|
  {
    assert |p| == |multiset(p)| == |multiset(q)| == |q|;
  }

  lemma AllButLast(p: seq<nat>, q: seq<nat>)
    requires |p| == |q| > 0 && multiset(q) == multiset(p) && q[|q| - 1] == p[|p| - 1]
    ensures multiset(q[..|q| - 1]) == multiset(p[..|p| - 1])
  {
    WithoutLast(p);
    WithoutLast(q);
  }

  lemma WithoutLast(p: seq<nat>)
    requires p != []
    ensures multiset(p[..|p| - 1]) == multiset(p) - multiset{p[|p| - 1]}
  {
    assert p == p[..|p| - 1] + [p[|p| - 1]];
  }

  /** The last swap, and what the shuffle has done before it. */
  lemma LastSwap(p: seq<nat>, d: seq<nat>)
    requires p != [] && Drawn(d, |p|)
    ensures var n := |p| - 1; var was := Shuffled(p[..n], d[..n], n) + [p[n]];
            Shuffled(p, d, |p|) == Swapped(was, n, d[n])
  {
    var n := |p| - 1;
    ShuffledOfPrefix(p, d, n, n, n);
    assert p[n..] == [p[n]];
    SmallRemainder(d[n], n + 1);
  }

  lemma SmallRemainder(x: nat, n: nat)
    requires x < n
    ensures x % n == x
  {
  }

  lemma PlaceOf(p: seq<nat>, x: nat) returns (j: nat)
    requires x in multiset(p)
    ensures j < |p| && p[j] == x
  {
    j :| j < |p| && p[j] == x;
  }

  /** Every order of the table comes from some draws. */
  lemma {:induction false} EveryOrderIsDrawn(p: seq<nat>, q: seq<nat>) returns (draws: seq<nat>)
    requires multiset(q) == multiset(p)
    ensures Drawn(draws, |p|) && Shuffled(p, draws, |p|) == q
    decreases |p|
  {
    SameLength(p, q);
    if p == [] {
      draws := [];
    } else {
      var n := |p| - 1;
      assert p[n] in multiset(p);
      var j := PlaceOf(q, p[n]);
      var was := Undone(p, q, j);
      var first := EveryOrderIsDrawn(p[..n], was[..n]);
      draws := first + [j];
      assert draws[..n] == first && was == was[..n] + [p[n]];
      LastSwap(p, draws);
    }
  }

  /** The order before the last swap. */
  lemma Undone(p: seq<nat>, q: seq<nat>, j: nat) returns (was: seq<nat>)
    requires |p| == |q| > j && multiset(q) == multiset(p) && q[j] == p[|p| - 1]
    ensures |was| == |q| && was[|p| - 1] == p[|p| - 1] && Swapped(was, |p| - 1, j) == q
    ensures multiset(was[..|p| - 1]) == multiset(p[..|p| - 1])
  {
    var n := |p| - 1;
    was := Swapped(q, n, j);
    SwapTwice(q, n, j);
    SwapKeepsElements(q, j, n);
    assert was == q[j := q[n]][n := q[j]];
    AllButLast(p, was);
  }

  /** For a table of different shards, different draws lead to different orders. */
  lemma {:induction false} DrawsAreDetermined(p: seq<nat>, d: seq<nat>, d': seq<nat>)
    requires DistinctItems(p) && Drawn(d, |p|) && Drawn(d', |p|) && Shuffled(p, d, |p|) == Shuffled(p, d', |p|)
    ensures d == d'
    decreases |p|
  {
    if p != [] {
      var n := |p| - 1;
      var first, e, e' := p[..n], d[..n], d'[..n];
      LastDrawsAgree(p, d, d');
      assert |first| == n && Drawn(e, n) && Drawn(e', n) && DistinctItems(first);
      DrawsAreDetermined(first, e, e');
      SameDraws(d, d', n);
    }
  }

  lemma SameDraws(d: seq<nat>, d': seq<nat>, n: nat)
    requires |d| == |d'| == n + 1 && d[..n] == d'[..n] && d[n] == d'[n]
    ensures d == d'
  {
    assert d == d[..n] + [d[n]] && d' == d'[..n] + [d'[n]];
  }

  lemma LastDrawsAgree(p: seq<nat>, d: seq<nat>, d': seq<nat>)
    requires DistinctItems(p) && p != [] && Drawn(d, |p|) && Drawn(d', |p|)
    requires Shuffled(p, d, |p|) == Shuffled(p, d', |p|)
    ensures var n := |p| - 1; d[n] == d'[n] && Shuffled(p[..n], d[..n], n) == Shuffled(p[..n], d'[..n], n)
  {
    var n := |p| - 1;
    var front, front' := Shuffled(p[..n], d[..n], n), Shuffled(p[..n], d'[..n], n);
    LastSwap(p, d);
    LastSwap(p, d');
    LastIsUnique(p, d, front + [p[n]]);
    LastIsUnique(p, d', front' + [p[n]]);
    SameLastSwap(front + [p[n]], front' + [p[n]], n, d[n], d'[n]);
    assert front == (front + [p[n]])[..n] && front' == (front' + [p[n]])[..n];
  }

  /** The last shard is none of those before it. */
  ghost predicate LastIsNew(p: seq<nat>) {
    p != [] && forall k :: 0 <= k < |p| - 1 ==> p[k] != p[|p| - 1]
  }

  lemma LastIsUnique(p: seq<nat>, d: seq<nat>, was: seq<nat>)
    requires DistinctItems(p) && p != [] && Drawn(d, |p|)
    requires was == Shuffled(p[..|p| - 1], d[..|p| - 1], |p| - 1) + [p[|p| - 1]]
    ensures |was| == |p| && LastIsNew(was)
  {
    var n := |p| - 1;
    var front := Shuffled(p[..n], d[..n], n);
    ShuffledKeeps(p[..n], d[..n], n);
    assert front[..n] == front && p[..n][..n] == p[..n];
    forall k | 0 <= k < n ensures was[k] != p[n] { assert was[k] in multiset(front); }
  }

  lemma LastWentTo(a: seq<nat>, n: nat, i: nat, j: nat)
    requires |a| == n + 1 && i <= n && j <= n && LastIsNew(a)
    ensures Swapped(a, n, i)[j] == a[n] <==> j == i
  {
  }

  lemma SameLastSwap(a: seq<nat>, b: seq<nat>, n: nat, i: nat, j: nat)
    requires |a| == |b| == n + 1 && i <= n && j <= n && a[n] == b[n] && LastIsNew(a) && LastIsNew(b)
    requires Swapped(a, n, i) == Swapped(b, n, j)
    ensures i == j && a == b
  {
    LastWentTo(a, n, i, j);
    LastWentTo(b, n, j, i);
    SwapTwice(a, n, i);
    SwapTwice(b, n, j);
  }

  // ---- batches

  /** The shards of batch `b`. */
  function BatchAt(p: seq<nat>, size: nat, b: nat): Batch
    requires b * size + size <= |p|
  {
    p[b * size..b * size + size]
  }

  /** Batches `lo` up to `hi`. */
  function Batches(p: seq<nat>, size: nat, lo: nat, hi: nat): (r: seq<Batch>)
    requires lo <= hi && hi * size <= |p|
    ensures |r| == hi - lo
    decreases hi
  {
    if lo == hi then [] else (Multiples(size, hi - 1, hi); Batches(p, size, lo, hi - 1) + [BatchAt(p, size, hi - 1)])
  }

  lemma Multiples(size: nat, lo: nat, hi: nat)
    requires lo < hi
    ensures lo * size + size <= hi * size
  {
    assert hi * size == lo * size + (hi - lo) * size;
    assert (hi - lo) * size == size + (hi - lo - 1) * size;
  }

  function Flatten(batches: seq<Batch>): seq<nat> {
    if batches == [] then [] else Flatten(batches[..|batches| - 1]) + batches[|batches| - 1]
  }

  /** Batches are consecutive: together they are a stretch of the table. */
  lemma {:induction false} BatchesCover(p: seq<nat>, size: nat, lo: nat, hi: nat)
    requires lo <= hi && hi * size <= |p|
    ensures lo * size <= hi * size && Flatten(Batches(p, size, lo, hi)) == p[lo * size..hi * size]
    decreases hi
  {
    if lo < hi {
      Multiples(size, hi - 1, hi);
      BatchesCover(p, size, lo, hi - 1);
      var r := Batches(p, size, lo, hi);
      assert r[..|r| - 1] == Batches(p, size, lo, hi - 1);
      assert (hi - 1) * size + size == hi * size;
    }
  }

  /** Batches depend on their stretch of the table only. */
  lemma {:induction false} BatchesOfStretch(p: seq<nat>, q: seq<nat>, size: nat, lo: nat, hi: nat)
    requires lo <= hi && hi * size <= |p| == |q| && forall i :: lo * size <= i < hi * size ==> p[i] == q[i]
    ensures Batches(p, size, lo, hi) == Batches(q, size, lo, hi)
    decreases hi
  {
    if lo < hi {
      Multiples(size, hi - 1, hi);
      Ordered(size, lo, hi - 1);
      BatchesOfStretch(p, q, size, lo, hi - 1);
      assert (hi - 1) * size + size == hi * size;
      assert BatchAt(p, size, hi - 1) == BatchAt(q, size, hi - 1);
    }
  }

  lemma Ordered(size: nat, lo: nat, hi: nat)
    requires lo <= hi
    ensures lo * size <= hi * size
  {
    if lo < hi { Multiples(size, lo, hi); }
  }

  class Dataset {
    const ndata: nat
    const shard: nat // datapoints per shard
    const permutation: array<nat>

    constructor (ndata: nat, shard: nat)
      requires ndata > 0 && shard > 0
      ensures Valid() && this.ndata == ndata && this.shard == shard && fresh(permutation)
      ensures permutation[..] == Identity(ndata / shard)
    {
      this.ndata, this.shard := ndata, shard;
      permutation := new nat[ndata / shard](i => i);
      new;
      assert permutation[..] == Identity(ndata / shard);
    }

    ghost predicate Valid()
      reads permutation
    {
      ndata > 0 && shard > 0 && permutation.Length == ndata / shard && Permutation(permutation[..], ndata / shard)
    }

    /** Shuffles the shards of the first `idata` datapoints, or all of them; `draws` are the random
        numbers. */
    method Shuffle(idata: int, draws: seq<nat>)
      requires Valid() && idata <= ndata && (idata >= 0 ==> idata % shard == 0) && |draws| >= permutation.Length
      modifies permutation
      ensures Valid()
      ensures var n := if idata < 0 then permutation.Length else idata / shard;
              n <= permutation.Length && permutation[..] == Shuffled(old(permutation[..]), draws, n)
                  && permutation[n..] == old(permutation[n..])
                  && multiset(permutation[..n]) == old(multiset(permutation[..n]))
    {
      var n := if idata < 0 then permutation.Length else idata / shard;
      assert n <= permutation.Length by { Quotients(if idata < 0 then 0 else idata, ndata, shard); }
      ghost var before := permutation[..];
      ShuffleFirst(n, draws);
      ShuffledPermutation(before, draws, n, ndata / shard);
      assert permutation[..][n..] == permutation[n..] && permutation[..][..n] == permutation[..n];
    }

    method ShuffleFirst(n: nat, draws: seq<nat>)
      requires n <= permutation.Length && n <= |draws|
      modifies permutation
      ensures permutation[..] == Shuffled(old(permutation[..]), draws, n)
    {
      if n == 0 { return; }
      ghost var before := permutation[..];
      var i := 1;
      while i < n
        invariant 1 <= i <= n && permutation[..] == Shuffled(before, draws, i)
      {
        Swap(draws[i] % (i + 1), i);
        i := i + 1;
      }
    }

    method Swap(j: nat, i: nat)
      requires j <= i < permutation.Length
      modifies permutation
      ensures permutation[..] == Swapped(old(permutation[..]), i, j)
    {
      permutation[i], permutation[j] := permutation[j], permutation[i];
    }

    /** Assembles batch `ibatch` of `size` datapoints. */
    method GetBatch(size: nat, ibatch: nat) returns (batch: Batch)
      requires Valid() && size % shard == 0 && (ibatch + 1) * (size / shard) <= permutation.Length
      ensures ibatch * (size / shard) + size / shard <= permutation.Length
      ensures batch == BatchAt(permutation[..], size / shard, ibatch)
    {
      var n := size / shard;
      assert (ibatch + 1) * n == ibatch * n + n;
      batch := [];
      var k := 0;
      while k < n
        invariant k <= n && batch == permutation[ibatch * n..ibatch * n + k]
      {
        batch := batch + [permutation[ibatch * n + k]];
        k := k + 1;
      }
    }
  }

  lemma Quotients(a: nat, b: nat, d: nat)
    requires a <= b && d > 0
    ensures a / d <= b / d
  {
    var x, y := a / d, b / d;
    assert a == d * x + a % d && b == d * y + b % d;
    if x > y { Multiples(d, y, x); }
  }
}
