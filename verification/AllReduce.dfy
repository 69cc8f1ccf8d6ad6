/** The generic all-reduce of the meta backend: in steps of doubling offset, pairs of backends swap
    their values and add. */
module AllReduce {
  import opened Arithmetic

  /** Bitwise exclusive or of natural numbers. */
  function Xor(a: nat, b: nat): nat
    decreases a + b
  {
    if a == 0 && b == 0 then 0 else 2 * Xor(a / 2, b / 2) + (if a % 2 == b % 2 then 0 else 1)
  }

  ghost predicate PowerOfTwo(n: nat) {
    n == 1 || (n > 1 && n % 2 == 0 && PowerOfTwo(n / 2))
  }

  /** The number of offsets 1, 2, 4, ... below n. */
  function Steps(n: nat): nat {
    if n <= 1 then 0 else 1 + Steps((n + 1) / 2)
  }

  function Sum(v: seq<int>, lo: nat, hi: nat): int
    requires lo <= hi <= |v|
    decreases hi
  {
    if lo == hi then 0 else Sum(v, lo, hi - 1) + v[hi - 1]
  }

  // ---- one step

  /** The other backend of a pair. */
  function Partner(j: nat, d: nat): nat
    requires d > 0
  {
    if j / d % 2 == 0 then j + d else j - d
  }

  lemma {:induction false} XorIsPartner(j: nat, d: nat)
    requires PowerOfTwo(d)
    ensures Xor(j, d) == Partner(j, d)
  {
    if d == 1 {
      assert Xor(j / 2, 0) == j / 2 by { XorZero(j / 2); }
    } else {
      XorIsPartner(j / 2, d / 2);
      var h := d / 2;
      assert d == 2 * h;
      assert j / d == j / 2 / h by { DivTwice(j, h); }
    }
  }

  lemma {:induction false} XorZero(a: nat)
    ensures Xor(a, 0) == a
  {
    if a > 0 { XorZero(a / 2); }
  }

  lemma DivTwice(j: nat, h: nat)
    requires h > 0
    ensures j / (2 * h) == j / 2 / h
  {
    var q := j / 2 / h;
    var r := j / 2 % h;
    assert j / 2 == q * h + r;
    assert j == (2 * h) * q + (2 * r + j % 2);
    QuotientIs(j, 2 * h, q, 2 * r + j % 2);
  }

  /** Pairing is symmetric. */
  lemma PartnerOfPartner(j: nat, d: nat)
    requires d > 0
    ensures Partner(Partner(j, d), d) == j && Partner(j, d) != j
  {
    var q, r := j / d, j % d;
    assert j == d * q + r;
    if q % 2 == 0 { NextBlock(d, q, r); } else { NextBlock(d, q - 1, r); }
  }

  /** The same place in the next block of `d`. */
  lemma NextBlock(d: nat, q: nat, r: nat)
    requires r < d
    ensures (d * q + r) / d == q && d * q + r + d == d * (q + 1) + r && (d * q + r + d) / d == q + 1
  {
    assert d * (q + 1) == d * q + d;
    QuotientIs(d * q + r, d, q, r);
    QuotientIs(d * q + r + d, d, q + 1, r);
  }

  /** Everybody with a partner adds the partner's value. */
  function Step(v: seq<int>, d: nat): (r: seq<int>)
    requires d > 0
    ensures |r| == |v|
  {
    seq(|v|, j requires 0 <= j < |v| => Added(v, d, j))
  }

  function Added(v: seq<int>, d: nat, j: nat): int
    requires d > 0 && j < |v|
  {
    v[j] + (if Partner(j, d) < |v| then v[Partner(j, d)] else 0)
  }

  /** All steps from offset `d` on. */
  function Reduced(v: seq<int>, d: nat): (r: seq<int>)
    requires d > 0
    ensures |r| == |v|
    decreases |v| - d
  {
    if d < |v| then Reduced(Step(v, d), 2 * d) else v
  }

  function Count(flags: seq<bool>): (c: nat)
    ensures c <= |flags|
  {
    if flags == [] then 0 else Count(flags[..|flags| - 1]) + (if flags[|flags| - 1] then 1 else 0)
  }

  lemma {:induction false} CountSet(flags: seq<bool>, i: nat)
    requires i < |flags| && !flags[i]
    ensures Count(flags[i := true]) == Count(flags) + 1
  {
    var n := |flags| - 1;
    if i < n {
      CountSet(flags[..n], i);
      assert flags[i := true][..n] == flags[..n][i := true];
    } else {
      assert flags[i := true][..n] == flags[..n];
    }
  }

  lemma CountTwo(flags: seq<bool>, i: nat, k: nat)
    requires i < |flags| && k < |flags| && i != k && !flags[i] && !flags[k]
    ensures Count(flags[i := true][k := true]) == Count(flags) + 2 <= |flags|
  {
    CountSet(flags, i);
    CountSet(flags[i := true], k);
  }

  lemma {:induction false} CountNone(flags: seq<bool>)
    requires forall i :: 0 <= i < |flags| ==> !flags[i]
    ensures Count(flags) == 0
  {
    if flags != [] { CountNone(flags[..|flags| - 1]); }
  }

  /** The pairs whose larger member is below `j` have exchanged their values. */
  ghost predicate Exchanged(node: seq<int>, tmp: seq<int>, step: seq<bool>, d: nat, j: nat) {
    |node| == |tmp| == |step| && d > 0 && forall x :: 0 <= x < |step| ==> Met(node, tmp, step, d, j, x)
  }

  /** Backend `x` has its partner's value if their turn was before `j`. */
  ghost predicate Met(node: seq<int>, tmp: seq<int>, step: seq<bool>, d: nat, j: nat, x: nat)
    requires |node| == |tmp| == |step| && d > 0 && x < |step|
  {
    && (step[x] <==> Partner(x, d) < |step| && Partner(x, d) < j && x < j)
    && (step[x] ==> tmp[x] == node[Partner(x, d)])
  }

  lemma ExchangeStep(node: seq<int>, tmp: seq<int>, step: seq<bool>, d: nat, j: nat)
    requires Exchanged(node, tmp, step, d, j) && j < |step|
    ensures var o := Partner(j, d);
            if o <= j then o < j && !step[j] && !step[o]
                && Exchanged(node, tmp[o := node[j]][j := node[o]], step[j := true][o := true], d, j + 1)
            else Exchanged(node, tmp, step, d, j + 1)
  {
    var o := Partner(j, d);
    PartnerOfPartner(j, d);
    assert Met(node, tmp, step, d, j, j);
    if o <= j { assert Met(node, tmp, step, d, j, o); }
    var tmp' := if o <= j then tmp[o := node[j]][j := node[o]] else tmp;
    var step' := if o <= j then step[j := true][o := true] else step;
    var j' := j + 1;
    forall x | 0 <= x < |step| ensures Met(node, tmp', step', d, j', x) {
      assert Met(node, tmp, step, d, j, x);
      PartnerOfPartner(x, d);
    }
  }

  /** Each of `n` backends holds a partial result and a buffer for receiving another's. */
  class Reducer {
    const n: nat
    const node: array<int>
    const tmp: array<int>
    const maxSubgraphs: nat
    const nGraphs: nat // pools of auxiliary graphs and nodes
    const nNodes: nat
    var iga: nat
    var ina: nat

    constructor (n: nat, maxSubgraphs: nat)
      requires n > 0
      ensures this.n == n == node.Length == tmp.Length && fresh(node) && fresh(tmp) && node != tmp
      ensures this.maxSubgraphs == maxSubgraphs && Valid() && iga == 0
    {
      this.n, this.maxSubgraphs := n, maxSubgraphs;
      node, tmp := new int[n](_ => 0), new int[n](_ => 0);
      nGraphs, nNodes := n * Steps(n) * maxSubgraphs, n * (2 * Steps(n)) * maxSubgraphs;
      iga, ina := 0, 0;
      NodesPerGraph(n, Steps(n), maxSubgraphs);
    }

    ghost predicate Valid()
      reads this
    {
      && node.Length == tmp.Length == n > 0 && node != tmp && ina == 2 * iga
      && nGraphs == Pool(n, maxSubgraphs) && nNodes == 2 * nGraphs
    }

    /** The pools have room for `graphs` more. */
    ghost predicate Room(graphs: nat)
      reads this
    {
      iga + graphs <= nGraphs && ina + 2 * graphs <= nNodes
    }

    /** All pairs exchange their values through the buffers, before anybody adds. */
    method Exchange(d: nat) returns (step: array<bool>)
      requires Valid() && PowerOfTwo(d) && d > 0 && Room(n)
      modifies tmp, this`iga, this`ina
      ensures Valid() && fresh(step) && step.Length == n && iga <= old(iga) + n
      ensures Exchanged(node[..], tmp[..], step[..], d, n)
    {
      step := new bool[n](_ => false);
      CountNone(step[..]);
      var j := 0;
      while j < n
        invariant j <= n && Valid() && fresh(step) && step.Length == n
        invariant Exchanged(node[..], tmp[..], step[..], d, j)
        invariant iga == old(iga) + Count(step[..])
      {
        Turn(d, j, step);
        j := j + 1;
      }
    }

    /** Backend `j` meets its partner if that comes before it. */
    method Turn(d: nat, j: nat, step: array<bool>)
      requires Valid() && PowerOfTwo(d) && j < n == step.Length && Exchanged(node[..], tmp[..], step[..], d, j)
      requires Room(n - Count(step[..]))
      modifies tmp, step, this`iga, this`ina
      ensures Valid() && Exchanged(node[..], tmp[..], step[..], d, j + 1)
      ensures iga - Count(step[..]) == old(iga - Count(step[..]))
    {
      var other := Xor(j, d);
      XorIsPartner(j, d);
      ExchangeStep(node[..], tmp[..], step[..], d, j);
      if other > j { return; }
      CountTwo(step[..], j, other);
      Swap(j, other, step);
    }

    /** Two peer-to-peer copies, two additions to be run later. */
    method Swap(j: nat, other: nat, step: array<bool>)
      requires Valid() && other < j < n == step.Length && !step[j] && !step[other] && Room(2)
      modifies tmp, step, this`iga, this`ina
      ensures Valid() && iga == old(iga) + 2 && Count(step[..]) == old(Count(step[..])) + 2
      ensures step[..] == old(step[..])[j := true][other := true]
      ensures tmp[..] == old(tmp[..])[other := node[j]][j := node[other]]
    {
      CountTwo(step[..], j, other);
      tmp[other] := node[j];
      tmp[j] := node[other];
      iga, ina := iga + 2, ina + 4;
      step[j] := true;
      step[other] := true;
      assert step[..] == old(step[..])[j := true][other := true];
    }

    /** Everybody who received a value adds it to its own. */
    method AddReceived(d: nat, step: array<bool>)
      requires Valid() && d > 0 && step.Length == n
      requires Exchanged(node[..], tmp[..], step[..], d, n)
      modifies node
      ensures node[..] == Step(old(node[..]), d)
    {
      ghost var before := node[..];
      var j := 0;
      while j < n
        invariant j <= n
        invariant forall x :: j <= x < n ==> node[x] == before[x]
        invariant forall x :: 0 <= x < j ==> node[x] == Added(before, d, x)
      {
        assert Met(before, tmp[..], step[..], d, n, j);
        if step[j] { node[j] := node[j] + tmp[j]; }
        j := j + 1;
      }
    }

    /** One all-reduce. The pools do not run out. */
    method AllReduce()
      requires Valid() && Room(PerRound(n))
      modifies node, tmp, this`iga, this`ina
      ensures Valid() && iga <= old(iga) + PerRound(n)
      ensures node[..] == Reduced(old(node[..]), 1)
    {
      StepsAreCounted(n);
      var d := 1;
      ghost var k := 0;
      while d < n
        invariant d > 0 && PowerOfTwo(d) && Valid()
        invariant StepsLeft(n, d) + k == Steps(n) && iga <= old(iga) + n * k
        invariant Reduced(old(node[..]), 1) == Reduced(node[..], d)
        decreases n - d
      {
        RoomForStep(n, k, StepsLeft(n, d));
        OneStep(d);
        k := k + 1;
        d := d * 2;
      }
    }

    /** Runs the subgraphs, whose outputs on the backends are `outputs`, and reduces after each but the
        last. `seen` is what the backends hold when the next subgraph starts, or at the end. */
    method Compute(outputs: seq<seq<int>>) returns (seen: seq<seq<int>>)
      requires Valid() && iga == 0 && |outputs| <= maxSubgraphs
      requires forall i :: 0 <= i < |outputs| ==> |outputs[i]| == n
      modifies node, tmp, this`iga, this`ina
      ensures |seen| == |outputs|
      ensures forall i ::
          0 <= i < |outputs| ==> seen[i] == if i < |outputs| - 1 then Reduced(outputs[i], 1) else outputs[i]
    {
      seen := [];
      var i := 0;
      while i < |outputs|
        invariant i <= |outputs| && Valid() && |seen| == i && iga <= Pool(n, i)
        invariant forall k :: 0 <= k < i ==> seen[k] == if k < |outputs| - 1 then Reduced(outputs[k], 1) else outputs[k]
      {
        forall j | 0 <= j < n { node[j] := outputs[i][j]; }
        assert node[..] == outputs[i];
        RoomForRound(PerRound(n), i, maxSubgraphs);
        if n > 1 && i < |outputs| - 1 { AllReduce(); }
        seen := seen + [node[..]];
        i := i + 1;
      }
    }

    method OneStep(d: nat)
      requires Valid() && PowerOfTwo(d) && d > 0 && Room(n)
      modifies node, tmp, this`iga, this`ina
      ensures Valid() && iga <= old(iga) + n && node[..] == Step(old(node[..]), d)
    {
      var step := Exchange(d);
      AddReceived(d, step);
    }
  }

  /** One auxiliary graph per backend and step, for each of `rounds` all-reduces. */
  function Pool(n: nat, rounds: nat): nat {
    PerRound(n) * rounds
  }

  function PerRound(n: nat): nat {
    n * Steps(n)
  }

  lemma RoomForRound(x: nat, i: nat, rounds: nat)
    requires i < rounds
    ensures x * i + x == x * (i + 1) <= x * rounds
  {
    assert x * rounds == x * (i + 1) + x * (rounds - i - 1);
  }

  lemma NodesPerGraph(n: nat, steps: nat, rounds: nat)
    ensures n * (2 * steps) * rounds == 2 * (n * steps * rounds)
  {
    assert n * (2 * steps) == 2 * (n * steps);
  }

  lemma RoomForStep(n: nat, k: nat, left: nat)
    requires left > 0
    ensures n * (k + left) >= n * k + n == n * (k + 1)
  {
    assert n * (k + left) == n * (k + 1) + n * (left - 1);
  }

  /** The number of offsets from `d` on. */
  function StepsLeft(n: nat, d: nat): (r: nat)
    requires d > 0
    ensures d < n ==> r > 0
    decreases n - d
  {
    if d < n then 1 + StepsLeft(n, 2 * d) else 0
  }

  lemma {:induction false} HalfTheBackends(n: nat, d: nat)
    requires d > 0
    ensures StepsLeft(n, 2 * d) == StepsLeft((n + 1) / 2, d)
    decreases n - d
  {
    if d < n { HalfTheBackends(n, 2 * d); }
  }

  lemma {:induction false} StepsAreCounted(n: nat)
    ensures Steps(n) == StepsLeft(n, 1)
  {
    if n > 1 {
      StepsAreCounted((n + 1) / 2);
      HalfTheBackends(n, 1);
    }
  }

  function Power(k: nat): (p: nat)
    ensures p > 0
  {
    if k == 0 then 1 else 2 * Power(k - 1)
  }

  /** The pools are sized with the binary logarithm, rounded up. */
  lemma {:induction false} StepsIsCeilingOfLog(n: nat)
    ensures n <= Power(Steps(n)) && (n > 1 ==> Power(Steps(n) - 1) < n)
  {
    if n > 1 {
      StepsIsCeilingOfLog((n + 1) / 2);
    }
  }

  // ---- what the steps add up to

  /** The values before the step with offset `d`. */
  ghost function Before(init: seq<int>, d: nat): (v: seq<int>)
    requires PowerOfTwo(d)
    ensures |v| == |init|
  {
    if d == 1 then init else Step(Before(init, d / 2), d / 2)
  }

  lemma {:induction false} SumSplits(v: seq<int>, lo: nat, mid: nat, hi: nat)
    requires lo <= mid <= hi <= |v|
    ensures Sum(v, lo, hi) == Sum(v, lo, mid) + Sum(v, mid, hi)
    decreases hi
  {
    if mid < hi { SumSplits(v, lo, mid, hi - 1); }
  }

  function BlockStart(j: nat, d: nat): nat
    requires d > 0
  {
    j - j % d
  }

  /** A block of 2h consists of two blocks of h, one of them `j`'s and the other its partner's. */
  lemma BlocksPairUp(j: nat, h: nat)
    requires h > 0
    ensures var b := BlockStart(j, 2 * h);
            if j / h % 2 == 0 then BlockStart(j, h) == b && BlockStart(Partner(j, h), h) == b + h && b <= j < b + h
            else BlockStart(j, h) == b + h && BlockStart(Partner(j, h), h) == b && b + h <= j < b + 2 * h
  {
    var q, r := j / h, j % h;
    assert j == h * q + r;
    var m := q / 2;
    if q % 2 == 0 {
      assert q == 2 * m;
      Scaled(h, m);
      LowerHalf(j, h, m, r);
    } else {
      assert q == 2 * m + 1;
      Scaled(h, m);
      UpperHalf(j, h, m, r);
    }
  }

  lemma Scaled(h: nat, m: nat)
    ensures h * (2 * m) == 2 * h * m && h * (2 * m + 1) == 2 * h * m + h
  {
  }

  lemma LowerHalf(j: nat, h: nat, m: nat, r: nat)
    requires h > 0 && r < h && j == 2 * h * m + r && j / h % 2 == 0
    ensures j % (2 * h) == r && j % h == r && Partner(j, h) == j + h && (j + h) % h == r
  {
    Scaled(h, m);
    QuotientIs(j, 2 * h, m, r);
    QuotientIs(j, h, 2 * m, r);
    QuotientIs(j + h, h, 2 * m + 1, r);
  }

  lemma UpperHalf(j: nat, h: nat, m: nat, r: nat)
    requires h > 0 && r < h && j == 2 * h * m + h + r && j / h % 2 == 1
    ensures j % (2 * h) == r + h && j % h == r && Partner(j, h) == j - h && (j - h) % h == r
  {
    Scaled(h, m);
    QuotientIs(j, 2 * h, m, r + h);
    QuotientIs(j, h, 2 * m + 1, r);
    QuotientIs(j - h, h, 2 * m, r);
  }

  /** Two neighbouring blocks and the block they form. */
  lemma BlockStep(init: seq<int>, v: seq<int>, h: nat, j: nat, b: nat)
    requires h > 0 && |v| == |init| && j < |v| && b == BlockStart(j, 2 * h) && b + 2 * h <= |init|
    requires Partner(j, h) < |v|
    requires BlockStart(j, h) + h <= |init| && v[j] == Sum(init, BlockStart(j, h), BlockStart(j, h) + h)
    requires BlockStart(Partner(j, h), h) + h <= |init|
    requires v[Partner(j, h)] == Sum(init, BlockStart(Partner(j, h), h), BlockStart(Partner(j, h), h) + h)
    ensures Added(v, h, j) == Sum(init, b, b + 2 * h)
  {
    BlocksPairUp(j, h);
    SumSplits(init, b, b + h, b + 2 * h);
  }

  lemma PartnerFits(j: nat, h: nat, n: nat)
    requires h > 0 && BlockStart(j, 2 * h) + 2 * h <= n
    ensures j < n && Partner(j, h) < n && BlockStart(j, h) + h <= n && BlockStart(Partner(j, h), h) + h <= n
  {
    BlocksPairUp(j, h);
  }

  /** Before the step with offset `d`, whoever sits in a complete block of `d` backends holds its sum. */
  lemma {:induction false} BlockSums(init: seq<int>, d: nat, j: nat)
    requires PowerOfTwo(d) && j < |init| && BlockStart(j, d) + d <= |init|
    ensures Before(init, d)[j] == Sum(init, BlockStart(j, d), BlockStart(j, d) + d)
  {
    if d == 1 {
      assert BlockStart(j, 1) == j;
    } else {
      var h := d / 2;
      assert d == 2 * h;
      PartnerFits(j, h, |init|);
      BlockSums(init, h, j);
      BlockSums(init, h, Partner(j, h));
      BlockStep(init, Before(init, h), h, j, BlockStart(j, d));
    }
  }

  lemma {:induction false} NextPower(d: nat, n: nat)
    requires PowerOfTwo(d) && PowerOfTwo(n) && d < n
    ensures 2 * d <= n
  {
    if d > 1 { NextPower(d / 2, n / 2); }
  }

  lemma DoublePower(init: seq<int>, d: nat)
    requires PowerOfTwo(d)
    ensures PowerOfTwo(2 * d) && Before(init, 2 * d) == Step(Before(init, d), d)
  {
    assert 2 * d / 2 == d;
  }

  lemma {:induction false} ReachesTop(init: seq<int>, d: nat)
    requires PowerOfTwo(d) && PowerOfTwo(|init|) && d <= |init|
    ensures Reduced(Before(init, d), d) == Before(init, |init|)
    decreases |init| - d
  {
    if d < |init| {
      NextPower(d, |init|);
      DoublePower(init, d);
      ReachesTop(init, 2 * d);
    }
  }

  /** The largest power of two below a number that is not one. */
  lemma {:induction false} TopPower(n: nat) returns (d: nat)
    requires n > 0 && !PowerOfTwo(n)
    ensures PowerOfTwo(d) && d < n < 2 * d
  {
    if n % 2 == 0 {
      d := TopPower(n / 2);
      d := 2 * d;
    } else if PowerOfTwo(n / 2) {
      d := 2 * (n / 2);
    } else {
      d := TopPower(n / 2);
      d := 2 * d;
    }
  }

  lemma {:induction false} ReachesLast(init: seq<int>, e: nat, d: nat)
    requires PowerOfTwo(e) && PowerOfTwo(d) && e <= d < |init| <= 2 * d
    ensures Reduced(Before(init, e), e) == Step(Before(init, d), d)
    decreases d - e
  {
    if e < d {
      NextPower(e, d);
      DoublePower(init, e);
      ReachesLast(init, 2 * e, d);
    }
  }

  /** Everybody holds the sum of all. */
  ghost predicate Agreed(v: seq<int>, total: int) {
    forall j :: 0 <= j < |v| ==> v[j] == total
  }

  lemma {:induction false} SumOfZeros(v: seq<int>, lo: nat, hi: nat)
    requires lo <= hi <= |v| && forall i :: lo <= i < hi ==> v[i] == 0
    ensures Sum(v, lo, hi) == 0
    decreases hi
  {
    if lo < hi { SumOfZeros(v, lo, hi - 1); }
  }

  /** Backend n - d is left out of the last step, and never hears of the last backend's value. */
  lemma LastIsMissed(n: nat) returns (init: seq<int>)
    requires n > 0 && !PowerOfTwo(n)
    ensures |init| == n && !Agreed(Reduced(init, 1), Sum(init, 0, n))
  {
    var d := TopPower(n);
    init := seq(n, i => if i == n - 1 then 1 else 0);
    ReachesLast(init, 1, d);
    var j := n - d;
    QuotientIs(j, d, 0, j);
    BlockSums(init, d, j);
    SumOfZeros(init, 0, n - 1);
    SumOfZeros(init, 0, d);
    assert Reduced(init, 1)[j] == 0;
  }

  lemma PowerOfTwoAgrees(init: seq<int>, j: nat)
    requires PowerOfTwo(|init|) && j < |init|
    ensures Reduced(init, 1)[j] == Sum(init, 0, |init|)
  {
    ReachesTop(init, 1);
    QuotientIs(j, |init|, 0, j);
    BlockSums(init, |init|, j);
  }

  /** Whatever the values, all backends end with the sum of all of them, if and only if the number of
      backends is a power of two. */
  lemma AllReduceNeedsPowerOfTwo(n: nat)
    requires n > 0
    ensures PowerOfTwo(n) <==> forall init: seq<int> :: |init| == n ==> Agreed(Reduced(init, 1), Sum(init, 0, n))
  {
    if PowerOfTwo(n) {
      forall init: seq<int> | |init| == n ensures Agreed(Reduced(init, 1), Sum(init, 0, n)) {
        forall j | 0 <= j < n ensures Reduced(init, 1)[j] == Sum(init, 0, n) { PowerOfTwoAgrees(init, j); }
      }
    } else {
      var init := LastIsMissed(n);
    }
  }
}
