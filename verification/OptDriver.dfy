/** The training driver: gradients of `opt_period` physical batches are accumulated for each step of the
    optimizer. */
module OptDriver {
  import opened Arithmetic
  import opened OptDataset

  datatype Build = Forward | Grad | Opt

  datatype Allocated = Nothing | Graph(build: Build)

  /** The batches cut into groups of `p`, and the rest that does not fill a group. */
  function Cut(batches: seq<Batch>, p: nat): (c: (seq<seq<Batch>>, seq<Batch>))
    requires p > 0
    ensures |c.1| < p
  {
    if batches == [] then ([], [])
    else
      var n := |batches| - 1;
      var (groups, rest) := Cut(batches[..n], p);
      if |rest| + 1 == p then (groups + [rest + [batches[n]]], []) else (groups, rest + [batches[n]])
  }

  function Groups(batches: seq<Batch>, p: nat): seq<seq<Batch>>
    requires p > 0
  {
    Cut(batches, p).0
  }

  function Rest(batches: seq<Batch>, p: nat): seq<Batch>
    requires p > 0
  {
    Cut(batches, p).1
  }

  /** Group `k` are batches k * p up to (k + 1) * p. */
  ghost predicate GroupIs(batches: seq<Batch>, p: nat, groups: seq<seq<Batch>>, k: nat)
    requires k < |groups|
  {
    k * p + p <= |batches| && groups[k] == batches[k * p..k * p + p]
  }

  lemma {:induction false} GroupsThenRest(batches: seq<Batch>, p: nat)
    requires p > 0
    ensures |batches| == |Groups(batches, p)| * p + |Rest(batches, p)|
    ensures Rest(batches, p) == batches[|Groups(batches, p)| * p..]
  {
    if batches != [] {
      var front := batches[..|batches| - 1];
      GroupsThenRest(front, p);
      var m := |Groups(front, p)|;
      assert (m + 1) * p == m * p + p;
    }
  }

  lemma {:induction false} GroupsAreConsecutive(batches: seq<Batch>, p: nat)
    requires p > 0
    ensures |batches| == |Groups(batches, p)| * p + |Rest(batches, p)|
    ensures Rest(batches, p) == batches[|Groups(batches, p)| * p..]
    ensures forall k :: 0 <= k < |Groups(batches, p)| ==> GroupIs(batches, p, Groups(batches, p), k)
  {
    GroupsThenRest(batches, p);
    if batches != [] {
      var front, g := batches[..|batches| - 1], Groups(batches, p);
      GroupsAreConsecutive(front, p);
      forall k | 0 <= k < |g| ensures GroupIs(batches, p, g, k) {
        if k < |Groups(front, p)| {
          GroupStays(batches, front, p, Groups(front, p), g, k);
        } else {
          LastGroup(batches, p, k);
        }
      }
    }
  }

  lemma LastGroup(batches: seq<Batch>, p: nat, k: nat)
    requires p > 0 && batches != [] && k == |Groups(batches[..|batches| - 1], p)| < |Groups(batches, p)|
    ensures GroupIs(batches, p, Groups(batches, p), k)
  {
    var n := |batches| - 1;
    var front := batches[..n];
    GroupsThenRest(front, p);
    var from := k * p;
    assert batches[from..from + p] == front[from..] + [batches[n]];
  }

  lemma GroupStays(batches: seq<Batch>, front: seq<Batch>, p: nat, groups: seq<seq<Batch>>, more: seq<seq<Batch>>,
                   k: nat)
    requires k < |groups| && k < |more| && more[k] == groups[k] && GroupIs(front, p, groups, k) && front <= batches
    ensures GroupIs(batches, p, more, k)
  {
    var from := k * p;
    assert batches[from..from + p] == front[from..from + p];
  }

  lemma RestIsRemainder(batches: seq<Batch>, p: nat)
    requires p > 0
    ensures |Rest(batches, p)| == |batches| % p && |Groups(batches, p)| == |batches| / p
  {
    GroupsAreConsecutive(batches, p);
    QuotientIs(|batches|, p, |Groups(batches, p)|, |Rest(batches, p)|);
  }

  /** `steps` is a ghost record of the batches whose gradients each optimizer step has seen. */
  class OptContext {
    const period: nat
    var buildType: Build
    var optI: nat
    var iter: nat
    var evalReady: bool
    var current: Allocated
    var inputs: Batch
    var grads: seq<Batch>
    ghost var steps: seq<seq<Batch>>

    constructor (period: nat)
      requires period > 0
      ensures this.period == period && Clean() && steps == [] && iter == 1
    {
      this.period := period;
      buildType, optI, iter, evalReady, current, inputs, grads := Opt, 0, 1, false, Nothing, [], [];
      steps := [];
    }

    /** With a single batch per step nothing is accumulated. */
    predicate Accumulates() {
      period > 1
    }

    /** Nothing is left over: the next batch starts a group. */
    ghost predicate Clean()
      reads this
    {
      period > 0 && !evalReady && optI == 0 && (Accumulates() && grads != [] ==> buildType == Opt)
    }

    /** Prepares the graph for the next batch. */
    method Alloc(backward: bool)
      requires period > 0 && !evalReady
      modifies this`buildType, this`grads, this`evalReady, this`current
      ensures evalReady && current == Graph(buildType)
      ensures buildType == if !backward then Forward else if (optI + 1) % period == 0 then Opt else Grad
      ensures grads == if old(buildType) == Opt && period > 1 && optI == 0 then [] else old(grads)
    {
      if buildType == Opt && period > 1 && optI == 0 { grads := []; }
      if backward {
        var next := (optI + 1) % period;
        buildType := if next == 0 then Opt else Grad;
      } else {
        buildType := Forward;
      }
      evalReady := true;
      if current == Graph(buildType) { return; }
      current := Graph(buildType);
    }

    /** Runs the graph on the loaded batch. */
    method Eval()
      requires period > 0 && evalReady && current.Graph?
      modifies this`grads, this`steps, this`iter, this`optI, this`evalReady
      ensures !evalReady && optI == (old(optI) + 1) % period
      ensures iter == old(iter) + (if current.build == Opt then 1 else 0)
      ensures steps == if current.build != Opt then old(steps)
                       else old(steps) + [if Accumulates() then old(grads) + [inputs] else [inputs]]
      ensures grads == if current.build != Forward && Accumulates() then old(grads) + [inputs] else old(grads)
    {
      if current.build != Forward && Accumulates() { grads := grads + [inputs]; }
      if current.build == Opt { steps := steps + [if Accumulates() then grads else [inputs]]; }
      iter := iter + (if current.build == Opt then 1 else 0);
      optI := (optI + 1) % period;
      evalReady := false;
    }

    /** `rest` are the batches of the group under way. */
    ghost predicate Pending(rest: seq<Batch>)
      reads this
    {
      && period > 0 && !evalReady && optI == |rest| < period
      && if rest == [] then Clean() else Accumulates() && grads == rest && buildType == Grad
    }

    /** A training batch joins its group; the one that completes it makes the optimizer step. */
    method TrainOn(batch: Batch, ghost rest: seq<Batch>)
      requires Pending(rest)
      modifies this
      ensures if |rest| + 1 == period then Pending([]) && steps == old(steps) + [rest + [batch]]
          && iter == old(iter) + 1
              else Pending(rest + [batch]) && steps == old(steps) && iter == old(iter)
    {
      if |rest| + 1 == period {
        QuotientIs(|rest| + 1, period, 1, 0);
      } else {
        QuotientIs(|rest| + 1, period, 0, |rest| + 1);
      }
      assert rest == [] ==> rest + [batch] == [batch];
      Alloc(true);
      inputs := batch;
      Eval();
    }

    /** A validation batch leaves steps and gradients alone, but counts towards `optI`. */
    method ValidateOn(batch: Batch)
      requires period > 0 && !evalReady
      modifies this
      ensures !evalReady && buildType == Forward && optI == (old(optI) + 1) % period && steps == old(steps)
      ensures iter == old(iter)
      ensures grads == if old(buildType) == Opt && period > 1 && old(optI) == 0 then [] else old(grads)
    {
      Alloc(false);
      inputs := batch;
      Eval();
    }

    /** The training batches of an epoch. */
    method Train(d: Dataset, size: nat, split: nat)
      requires d.Valid() && Clean() && size % d.shard == 0 && split * (size / d.shard) <= d.permutation.Length
      modifies this
      ensures var train := Batches(d.permutation[..], size / d.shard, 0, split);
              Pending(Rest(train, period)) && steps == old(steps) + Groups(train, period)
                  && iter == old(iter) + |Groups(train, period)|
    {
      ghost var n, p := size / d.shard, d.permutation[..];
      var ibatch := 0;
      while ibatch < split
        invariant ibatch <= split && ibatch * n <= |p| && d.Valid()
        invariant Pending(Rest(Batches(p, n, 0, ibatch), period))
        invariant steps == old(steps) + Groups(Batches(p, n, 0, ibatch), period)
        invariant iter == old(iter) + |Groups(Batches(p, n, 0, ibatch), period)|
      {
        Ordered(n, ibatch + 1, split);
        var batch := d.GetBatch(size, ibatch);
        ghost var done, more := Batches(p, n, 0, ibatch), Batches(p, n, 0, ibatch + 1);
        assert more[..|more| - 1] == done;
        TrainOn(batch, Rest(done, period));
        ibatch := ibatch + 1;
      }
    }

    /** Validation batch `ibatch`, after `count` batches since the last step. */
    method ValidateNext(d: Dataset, size: nat, ibatch: nat, nbatches: nat, ghost count: nat)
      requires d.Valid() && size % d.shard == 0 && ibatch < nbatches
      requires nbatches * (size / d.shard) <= d.permutation.Length
      requires period > 0 && !evalReady && optI == count % period
      modifies this
      ensures !evalReady && buildType == Forward && optI == (count + 1) % period
      ensures steps == old(steps) && iter == old(iter)
      ensures grads == if old(buildType) == Opt && period > 1 && old(optI) == 0 then [] else old(grads)
    {
      Ordered(size / d.shard, ibatch + 1, nbatches);
      var batch := d.GetBatch(size, ibatch);
      NextRemainder(count, period);
      ValidateOn(batch);
    }

    /** The validation batches of an epoch. */
    method Validate(d: Dataset, size: nat, split: nat, nbatches: nat, ghost rest: seq<Batch>)
      requires d.Valid() && Pending(rest) && size % d.shard == 0 && split <= nbatches
      requires nbatches * (size / d.shard) <= d.permutation.Length
      modifies this
      ensures steps == old(steps) && iter == old(iter)
      ensures Clean() <==> rest == [] && (nbatches - split) % period == 0
    {
      QuotientIs(|rest|, period, 0, |rest|);
      var ibatch := split;
      while ibatch < nbatches
        invariant split <= ibatch <= nbatches && d.Valid() && period > 0 && !evalReady && steps == old(steps)
        invariant iter == old(iter)
        invariant ibatch == split ==> Pending(rest)
        invariant ibatch > split ==> buildType == Forward && (Accumulates() ==> grads == rest)
        invariant optI == (|rest| + ibatch - split) % period
      {
        ValidateNext(d, size, ibatch, nbatches, |rest| + ibatch - split);
        ibatch := ibatch + 1;
      }
    }

    /** One epoch: training on the first `split` datapoints, validation on the others. Nothing is left
        over exactly if both parts are made of whole groups. */
    method Epoch(d: Dataset, size: nat, split: int)
      requires d.Valid() && Clean() && size > 0 && d.ndata % size == 0 && size % d.shard == 0
      requires split <= d.ndata && (split >= 0 ==> split % size == 0)
      modifies this
      ensures var n, trained := size / d.shard, (if split < 0 then d.ndata else split) / size;
              trained * n <= d.permutation.Length &&
              var train := Batches(d.permutation[..], n, 0, trained);
              && steps == old(steps) + Groups(train, period) && iter == old(iter) + trained / period
              && (Clean() <==> trained % period == 0 && (d.ndata / size - trained) % period == 0)
    {
      var idataSplit := if split < 0 then d.ndata else split;
      var ibatchSplit := idataSplit / size;
      var nbatches := d.ndata / size;
      TableSize(d.ndata, size, d.shard);
      Quotients(idataSplit, d.ndata, size);
      Ordered(size / d.shard, ibatchSplit, nbatches);
      ghost var train := Batches(d.permutation[..], size / d.shard, 0, ibatchSplit);
      RestIsRemainder(train, period);
      Train(d, size, ibatchSplit);
      Validate(d, size, ibatchSplit, nbatches, Rest(train, period));
    }
  }

  lemma NextRemainder(n: nat, p: nat)
    requires p > 0
    ensures (n + 1) % p == (n % p + 1) % p
  {
    var q, r := n / p, n % p;
    assert n == q * p + r;
    if r + 1 == p {
      assert n + 1 == (q + 1) * p + 0;
      QuotientIs(n + 1, p, q + 1, 0);
      QuotientIs(r + 1, p, 1, 0);
    } else {
      QuotientIs(n + 1, p, q, r + 1);
      QuotientIs(r + 1, p, 0, r + 1);
    }
  }

  /** The table has a shard for every batch. */
  lemma TableSize(ndata: nat, size: nat, shard: nat)
    requires size > 0 && shard > 0 && ndata % size == 0 && size % shard == 0
    ensures ndata / size * (size / shard) == ndata / shard
  {
    var nb, n := ndata / size, size / shard;
    assert ndata == nb * size && size == n * shard;
    assert ndata == (nb * n) * shard + 0;
    QuotientIs(ndata, shard, nb * n, 0);
  }

  /** The steps of several epochs that train on the first `trained` batches of these tables. */
  function StepsOf(tables: seq<seq<nat>>, n: nat, trained: nat, p: nat): seq<seq<Batch>>
    requires p > 0 && forall e :: 0 <= e < |tables| ==> trained * n <= |tables[e]|
  {
    if tables == [] then []
    else
      var last := |tables| - 1;
      StepsOf(tables[..last], n, trained, p) + Groups(Batches(tables[last], n, 0, trained), p)
  }

  /** `k` is what the validation share leaves of `n`, rounded down. */
  ghost predicate RoundedShare(valSplit: real, n: nat, k: nat) {
    k as real <= (1.0 - valSplit) * n as real < k as real + 1.0
  }

  /** The logical batches to train on: what the validation share leaves, rounded down. */
  method TrainedShare(valSplit: real, nlogical: nat) returns (k: nat)
    requires 0.0 <= valSplit < 1.0
    ensures RoundedShare(valSplit, nlogical, k) && k <= nlogical && (valSplit == 0.0 ==> k == nlogical)
  {
    Fraction(1.0 - valSplit, nlogical as real);
    k := ((1.0 - valSplit) * nlogical as real).Floor;
  }

  lemma Fraction(a: real, n: real)
    requires 0.0 <= a <= 1.0 && n >= 0.0
    ensures 0.0 <= a * n <= n
  {
    assert n - a * n == (1.0 - a) * n;
  }

  /** The table of one epoch, compared with the first: the same shards for training, and the same
      table for validation. */
  ghost predicate SameSplit(first: seq<nat>, table: seq<nat>, shards: nat) {
    && |table| == |first| && shards <= |first|
    && multiset(table[..shards]) == multiset(first[..shards]) && table[shards..] == first[shards..]
  }

  ghost predicate TableOk(tables: seq<seq<nat>>, total: nat, shards: nat, e: nat)
    requires e < |tables|
  {
    Permutation(tables[e], total) && SameSplit(tables[0], tables[e], shards)
  }

  /** The table after the shards of `n` places have been shuffled, if they are. */
  function Reordered(table: seq<nat>, draw: seq<nat>, n: nat, shuffles: bool): (r: seq<nat>)
    requires n <= |table| && n <= |draw|
    ensures |r| == |table|
  {
    if shuffles then Shuffled(table, draw, n) else table
  }

  ghost predicate OrderAt(tables: seq<seq<nat>>, start: seq<nat>, draws: seq<seq<nat>>, n: nat, shuffles: bool, e: nat)
    requires e < |tables| < |draws|
  {
    var before := if e == 0 then start else tables[e - 1];
    n <= |before| && n <= |draws[e + 1]| && tables[e] == Reordered(before, draws[e + 1], n, shuffles)
  }

  /** The tables of the epochs come from `start` by one shuffle of the first `n` places each, if there
      are any. */
  ghost predicate InOrder(tables: seq<seq<nat>>, start: seq<nat>, draws: seq<seq<nat>>, n: nat, shuffles: bool) {
    |tables| < |draws| && forall e :: 0 <= e < |tables| ==> OrderAt(tables, start, draws, n, shuffles, e)
  }

  /** A whole training run. `tables` are the shard tables of the epochs, `draws` the random numbers of
      the shuffles, and `k` is how many logical batches an epoch trains on. */
  method Fit(d: Dataset, size: nat, logical: nat, nepoch: nat, valSplit: real, draws: seq<seq<nat>>)
    returns (c: OptContext, ghost tables: seq<seq<nat>>, ghost k: nat)
    requires d.Valid() && size > 0 && logical > 0 && d.ndata % logical == 0 && logical % size == 0
    requires size % d.shard == 0
    requires 0.0 <= valSplit < 1.0 && |draws| == nepoch + 1
    requires forall e :: 0 <= e < |draws| ==> |draws[e]| >= d.permutation.Length
    modifies d.permutation
    ensures d.Valid() && fresh(c) && c.period == logical / size > 0 && c.Clean()
    ensures RoundedShare(valSplit, d.ndata / logical, k) && (valSplit == 0.0 ==> k == d.ndata / logical)
    ensures var n, trained := size / d.shard, k * (logical / size);
            && |tables| == nepoch
            && (forall e ::
                0 <= e < nepoch ==> TableOk(tables, d.ndata / d.shard, trained * n, e) && trained * n <= |tables[e]|)
            && c.steps == StepsOf(tables, n, trained, logical / size)
            && c.iter == 1 + nepoch * k
    ensures InOrder(tables,
        Reordered(old(d.permutation[..]), draws[0], d.permutation.Length, logical < d.ndata), draws,
        k * (logical / size) * (size / d.shard), k > 1)
  {
    var period := logical / size;
    var nlogical := d.ndata / logical;
    var share := TrainedShare(valSplit, nlogical);
    k := share;
    NotNegative(share, period);
    var ibatchSplit: nat := share * period;
    c, tables := Run(d, size, logical, nepoch, ibatchSplit, draws, share);
  }

  /** The run, when the number of physical batches to train on is settled. */
  method Run(d: Dataset, size: nat, logical: nat, nepoch: nat, ibatchSplit: nat, draws: seq<seq<nat>>, ghost k: nat)
    returns (c: OptContext, ghost tables: seq<seq<nat>>)
    requires d.Valid() && size > 0 && logical > 0 && d.ndata % logical == 0 && logical % size == 0
    requires size % d.shard == 0 && k <= d.ndata / logical && ibatchSplit == k * (logical / size)
    requires |draws| == nepoch + 1 && forall e :: 0 <= e < |draws| ==> |draws[e]| >= d.permutation.Length
    modifies d.permutation
    ensures d.Valid() && fresh(c) && c.period == logical / size > 0 && c.Clean() && |tables| == nepoch
    ensures Ran(tables, d.permutation[..], c.steps, c.iter, d.ndata / d.shard, size / d.shard, ibatchSplit,
        logical / size, k)
    ensures InOrder(tables,
        Reordered(old(d.permutation[..]), draws[0], d.permutation.Length, logical < d.ndata), draws,
        ibatchSplit * (size / d.shard), k > 1)
  {
    var period := logical / size;
    NotNegative(ibatchSplit, size);
    var idataSplit: nat := ibatchSplit * size;
    FitSizes(d.ndata, size, logical, d.shard, k);
    c := new OptContext(period);
    if logical < d.ndata { d.Shuffle(-1, draws[0]); }
    tables := [];
    ghost var n, total, start := size / d.shard, d.ndata / d.shard, d.permutation[..];
    NotNegative(ibatchSplit, n);
    ghost var shards: nat := ibatchSplit * n;
    NothingRan(d.permutation[..], total, n, ibatchSplit, period, k);
    var epoch := 1;
    while epoch <= nepoch
      invariant 1 <= epoch <= nepoch + 1 && d.Valid() && fresh(c) && c.period == period && c.Clean()
      invariant |tables| == epoch - 1 && (tables == [] ==> d.permutation[..] == start)
      invariant Ran(tables, d.permutation[..], c.steps, c.iter, total, n, ibatchSplit, period, k)
      invariant InOrder(tables, start, draws, shards, k > 1)
    {
      NextEpoch(d, c, size, logical, idataSplit, draws, ibatchSplit, k, n, tables, start, shards,
          epoch);
      tables := tables + [d.permutation[..]];
      epoch := epoch + 1;
    }
  }

  /** One epoch more, with what is known of the ones before it. */
  method NextEpoch(d: Dataset, c: OptContext, size: nat, logical: nat, idataSplit: nat, draws: seq<seq<nat>>,
                   ghost trained: nat, ghost k: nat, ghost n: nat, ghost tables: seq<seq<nat>>,
                   ghost start: seq<nat>, ghost shards: nat, epoch: nat)
    requires d.Valid() && c.Clean() && epoch == |tables| + 1 < |draws| && |draws[epoch]| >= d.permutation.Length
    requires EpochSizes(d.ndata, size, logical, d.shard, idataSplit, trained, k, n, c.period) && shards == trained * n
    requires Ran(tables, d.permutation[..], c.steps, c.iter, d.ndata / d.shard, n, trained, c.period, k)
    requires InOrder(tables, start, draws, shards, k > 1) && (tables == [] ==> d.permutation[..] == start)
    modifies d.permutation, c
    ensures d.Valid() && c.Clean()
    ensures Ran(tables + [d.permutation[..]], d.permutation[..], c.steps, c.iter, d.ndata / d.shard, n, trained,
        c.period, k)
    ensures InOrder(tables + [d.permutation[..]], start, draws, shards, k > 1)
  {
    ghost var before, steps, iter := d.permutation[..], c.steps, c.iter;
    FitEpoch(d, c, size, logical, idataSplit, draws[epoch], trained, k, n);
    OneMoreEpoch(tables, before, d.permutation[..], steps, c.steps, iter, c.iter, d.ndata / d.shard, n, trained,
        c.period, k, shards);
    OneMoreTable(tables, start, before, d.permutation[..], draws, shards, k > 1);
  }

  /** How the sizes of a run fit together: an epoch trains on `trained` batches of `n` shards, which are
      `k` logical batches and `idata` datapoints. */
  ghost predicate EpochSizes(ndata: nat, size: nat, logical: nat, shard: nat, idata: nat, trained: nat, k: nat, n: nat,
                             period: nat) {
    && size > 0 && logical > 0 && shard > 0 && period > 0
    && ndata % size == 0 && size % shard == 0 && n == size / shard
    && idata == k * logical && idata <= ndata && idata % size == 0 && idata % shard == 0
    && idata / size == trained && idata / shard == trained * n <= ndata / shard
    && trained % period == 0 && trained / period == k && trained <= ndata / size
    && (ndata / size - trained) % period == 0
  }

  lemma OneMoreTable(tables: seq<seq<nat>>, start: seq<nat>, before: seq<nat>, now: seq<nat>, draws: seq<seq<nat>>,
                     n: nat, shuffles: bool)
    requires InOrder(tables, start, draws, n, shuffles) && |tables| + 1 < |draws|
    requires before == if tables == [] then start else tables[|tables| - 1]
    requires n <= |before| && n <= |draws[|tables| + 1]|
    requires now == Reordered(before, draws[|tables| + 1], n, shuffles)
    ensures InOrder(tables + [now], start, draws, n, shuffles)
  {
    var more := tables + [now];
    forall e | 0 <= e < |more| ensures OrderAt(more, start, draws, n, shuffles, e) {
      if e < |tables| { assert OrderAt(tables, start, draws, n, shuffles, e); }
    }
  }

  /** The tables that several epochs have used; `table` is the current one. */
  ghost predicate TablesRan(tables: seq<seq<nat>>, table: seq<nat>, total: nat, shards: nat) {
    && (forall e :: 0 <= e < |tables| ==> TableOk(tables, total, shards, e) && shards <= |tables[e]|)
    && (|tables| > 0 ==> table == tables[|tables| - 1])
  }

  /** What several epochs have left behind. */
  ghost predicate Ran(tables: seq<seq<nat>>, table: seq<nat>, steps: seq<seq<Batch>>, iter: nat,
                      total: nat, n: nat, trained: nat, p: nat, k: nat) {
    && p > 0
    && TablesRan(tables, table, total, trained * n)
    && steps == StepsOf(tables, n, trained, p)
    && iter == 1 + |tables| * k
  }

  lemma NothingRan(table: seq<nat>, total: nat, n: nat, trained: nat, p: nat, k: nat)
    requires p > 0
    ensures Ran([], table, [], 1, total, n, trained, p, k)
  {
  }

  lemma OneMoreEpoch(tables: seq<seq<nat>>, before: seq<nat>, now: seq<nat>, steps: seq<seq<Batch>>,
                     more: seq<seq<Batch>>, iter: nat, next: nat, total: nat, n: nat, trained: nat, p: nat, k: nat,
                     shards: nat)
    requires Ran(tables, before, steps, iter, total, n, trained, p, k) && shards == trained * n
    requires Permutation(now, total) && shards <= |now| == |before|
    requires now[shards..] == before[shards..] && multiset(now[..shards]) == multiset(before[..shards])
    requires more == steps + Groups(Batches(now, n, 0, trained), p) && next == iter + k
    ensures Ran(tables + [now], now, more, next, total, n, trained, p, k)
  {
    NextTable(tables, before, now, total, shards);
    assert TablesRan(tables + [now], now, total, shards);
    MoreSteps(tables, now, n, trained, p);
    OneMore(|tables|, k);
  }

  lemma OneMore(m: nat, k: nat)
    ensures (m + 1) * k == m * k + k
  {
  }

  lemma MoreSteps(tables: seq<seq<nat>>, now: seq<nat>, n: nat, trained: nat, p: nat)
    requires p > 0 && forall e :: 0 <= e < |tables| ==> trained * n <= |tables[e]|
    requires trained * n <= |now| && forall e :: 0 <= e < |tables| + 1 ==> trained * n <= |(tables + [now])[e]|
    ensures StepsOf(tables + [now], n, trained, p)
         == StepsOf(tables, n, trained, p) + Groups(Batches(now, n, 0, trained), p)
  {
    assert (tables + [now])[..|tables|] == tables;
  }

  /** One epoch of a run: the training shards are shuffled, if there is more than a logical batch of
      them, and the epoch is run. */
  method FitEpoch(d: Dataset, c: OptContext, size: nat, logical: nat, idataSplit: nat, draw: seq<nat>,
                  ghost trained: nat, ghost k: nat, ghost n: nat)
    requires d.Valid() && c.Clean() && |draw| >= d.permutation.Length
    requires EpochSizes(d.ndata, size, logical, d.shard, idataSplit, trained, k, n, c.period)
    modifies d.permutation, c
    ensures d.Valid() && c.Clean() && trained * n <= d.permutation.Length
    ensures d.permutation[..] == Reordered(old(d.permutation[..]), draw, trained * n, k > 1)
    ensures d.permutation[trained * n..] == old(d.permutation[trained * n..])
    ensures multiset(d.permutation[..trained * n]) == old(multiset(d.permutation[..trained * n]))
    ensures c.steps == old(c.steps) + Groups(Batches(d.permutation[..], n, 0, trained), c.period)
    ensures c.iter == old(c.iter) + k
  {
    Quotients(idataSplit, d.ndata, d.shard);
    MoreThanOne(k, logical);
    if logical < idataSplit { d.Shuffle(idataSplit, draw); }
    c.Epoch(d, size, idataSplit);
  }

  lemma MoreThanOne(k: nat, n: nat)
    requires n > 0
    ensures n < k * n <==> k > 1
  {
    if k > 1 { assert k * n == n + (k - 1) * n && (k - 1) * n > 0; }
  }

  lemma MultipleOf(q: nat, p: nat)
    requires p > 0
    ensures q * p / p == q && q * p % p == 0
  {
    QuotientIs(q * p, p, q, 0);
  }

  /** What the sizes of a run have to do with each other. */
  lemma FitSizes(ndata: nat, size: nat, logical: nat, shard: nat, k: nat)
    requires size > 0 && logical > 0 && shard > 0 && ndata % logical == 0 && logical % size == 0 && size % shard == 0
    requires k <= ndata / logical
    ensures var period, n, trained := logical / size, size / shard, k * (logical / size);
      EpochSizes(ndata, size, logical, shard, trained * size, trained, k, n, period)
  {
    var period, n, nl := logical / size, size / shard, ndata / logical;
    var trained := k * period;
    assert logical == period * size && size == n * shard && ndata == nl * logical;
    Products(nl, period, size);
    Products(k, period, size);
    MultipleOf(nl * period, size);
    MultipleOf(trained, size);
    Products(trained, n, shard);
    MultipleOf(trained * n, shard);
    MultipleOf(k, period);
    Ordered(period, k, nl);
    Ordered(size, trained, nl * period);
    assert nl * period - trained == (nl - k) * period;
    MultipleOf(nl - k, period);
    Quotients(trained * size, ndata, shard);
  }

  lemma Products(a: nat, b: nat, c: nat)
    ensures a * (b * c) == a * b * c
  {
  }

  /** The next epoch's table, after a shuffle of the training shards or none. */
  lemma NextTable(tables: seq<seq<nat>>, before: seq<nat>, now: seq<nat>, total: nat, shards: nat)
    requires forall e :: 0 <= e < |tables| ==> TableOk(tables, total, shards, e) && shards <= |tables[e]|
    requires tables != [] ==> before == tables[|tables| - 1]
    requires Permutation(now, total) && shards <= |now| == |before| && now[shards..] == before[shards..]
    requires multiset(now[..shards]) == multiset(before[..shards])
    ensures forall e ::
        0 <= e < |tables| + 1 ==> TableOk(tables + [now], total, shards, e) && shards <= |(tables + [now])[e]|
  {
    var more := tables + [now];
    forall e | 0 <= e < |more| ensures TableOk(more, total, shards, e) {
      if e < |tables| { assert TableOk(tables, total, shards, e); }
      else if tables != [] { assert TableOk(tables, total, shards, |tables| - 1); }
    }
  }

  /** If both parts are cut into whole batches, an epoch visits every shard of the table once. */
  lemma EpochVisitsEveryShardOnce(table: seq<nat>, total: nat, n: nat, split: nat, nbatches: nat)
    requires Permutation(table, total) && split <= nbatches && nbatches * n == total
    ensures split * n <= total
    ensures multiset(Flatten(Batches(table, n, 0, split)) + Flatten(Batches(table, n, split, nbatches)))
        == multiset(Identity(total))
  {
    Ordered(n, split, nbatches);
    BatchesCover(table, n, 0, split);
    BatchesCover(table, n, split, nbatches);
    assert table[..split * n] + table[split * n..total] == table;
  }

  /** Without a validation share, an epoch trains on every shard of the table once. */
  lemma WithoutValidationAllIsTrained(table: seq<nat>, ndata: nat, size: nat, logical: nat, shard: nat, k: nat)
    requires size > 0 && logical > 0 && shard > 0 && ndata % logical == 0 && logical % size == 0 && size % shard == 0
    requires Permutation(table, ndata / shard) && k as real <= (ndata / logical) as real < k as real + 1.0
    ensures var n, trained := size / shard, k * (logical / size);
            && trained * n == ndata / shard
            && multiset(Flatten(Batches(table, n, 0, trained))) == multiset(Identity(ndata / shard))
  {
    var period, n, nl := logical / size, size / shard, ndata / logical;
    assert k == nl;
    assert logical == period * size && size == n * shard && ndata == nl * logical;
    Products(nl, period, size);
    Products(nl * period, n, shard);
    MultipleOf(nl * period * n, shard);
    BatchesCover(table, n, 0, nl * period);
    assert table[0..ndata / shard] == table;
  }

  /** Training and validation never see the same shard, in any epoch of a run. */
  lemma TrainingAndValidationStayApart(tables: seq<seq<nat>>, total: nat, shards: nat, e: nat, f: nat, i: nat, j: nat)
    requires e < |tables| && f < |tables| && TableOk(tables, total, shards, e) && TableOk(tables, total, shards, f)
    requires i < shards <= j < total
    ensures tables[e][i] != tables[f][j]
  {
    var first, te, tf := tables[0], tables[e], tables[f];
    assert tf[j] == tf[shards..][j - shards] == first[shards..][j - shards] == te[shards..][j - shards] == te[j];
    DistinctEntries(te, total, i, j);
  }

  lemma DistinctEntries(p: seq<nat>, n: nat, i: nat, j: nat)
    requires Permutation(p, n) && i < j < n
    ensures p[i] != p[j]
  {
    if p[i] == p[j] {
      var x := p[i];
      assert p == p[..i] + [x] + p[i + 1..j] + [x] + p[j + 1..];
      assert multiset(p)[x] >= 2;
      IdentityCounts(n, x);
    }
  }

  lemma {:induction false} IdentityCounts(n: nat, x: nat)
    ensures multiset(Identity(n))[x] <= 1 && (x >= n ==> multiset(Identity(n))[x] == 0)
  {
    if n > 0 {
      IdentityCounts(n - 1, x);
      assert Identity(n) == Identity(n - 1) + [n - 1];
    }
  }
}
