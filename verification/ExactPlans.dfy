/** When a plan serves a graph: exactly if inputs do not overlap and no node writes over what is still
    needed. */
module ExactPlans {
  import opened Wrappers
  import opened Graphs
  import opened Executions

  /** No node is a leaf. */
  ghost predicate LeafsApart(g: Graph) {
    forall i :: 0 <= i < |g.nodes| ==> g.nodes[i] !in g.leafs
  }

  // ---- a node that writes over what is needed later

  /** What node `k` leaves: ones, except that zeros are put into `r`, and views of `r` keep what they find. */
  function Poison(g: Graph, plan: Plan, r: nat, k: nat, before: Option<seq<Byte>>): seq<Byte>
    requires |plan| == |g.tensors|
  {
    if k >= |g.nodes| || Root(g, g.nodes[k]) != r then Bytes(RootSize(g, plan, k), 1)
    else if before.Some? && |before.value| == RootSize(g, plan, k) then before.value
    else Bytes(RootSize(g, plan, k), 0)
  }

  function Poisonous(g: Graph, plan: Plan, r: nat): (ops: Ops)
    requires |plan| == |g.tensors|
  {
    Ops((k: nat, o: Option<seq<Byte>>, a: seq<seq<Byte>>) => Poison(g, plan, r, k, o),
        (k: nat) => Bytes(RootSize(g, plan, k), 1))
  }

  /** In private storage `r` holds zeros all the time. */
  lemma {:induction false} ZerosStay(g: Graph, plan: Plan, r: nat, n: nat)
    requires |plan| == |g.tensors| && r < |g.tensors| && n <= |g.nodes|
    ensures RunPrivate(g, Poisonous(g, plan, r), Zeros(g, plan), n)(r) == Bytes(InitSize(g, plan, r), 0)
  {
    if n > 0 { ZerosStay(g, plan, r, n - 1); }
  }

  /** A byte that both `r` and `w` occupy. */
  ghost predicate Shared(g: Graph, plan: Plan, r: nat, w: nat, l: Loc)
    requires r < |g.tensors| && w < |g.tensors| && |plan| == |g.tensors|
  {
    && Covered(plan[r], Size(g, r, plan[r].buffer), l)
    && Covered(plan[w], Size(g, w, plan[w].buffer), l)
  }

  lemma ReadsByte(g: Graph, plan: Plan, s: Store, r: nat, l: Loc)
    requires |plan| == |g.tensors| && Owned(g, r) && Covered(plan[r], Size(g, r, plan[r].buffer), l)
    ensures Read(g, plan, s, r)[l.offset - plan[r].addr.offset] == s.mem(l)
  {
    assert l == Cell(plan[r], l.offset - plan[r].addr.offset);
  }

  lemma SharedByte(g: Graph, plan: Plan, r: nat, w: nat) returns (l: Loc)
    requires r < |g.tensors| && w < |g.tensors| && |plan| == |g.tensors| && !TensorsApart(g, plan, r, w)
    ensures Shared(g, plan, r, w, l)
  {
    var p, q := plan[r], plan[w];
    l := Loc(p.buffer, p.addr.chunk, if p.addr.offset < q.addr.offset then q.addr.offset else p.addr.offset);
  }

  /** Node `i` writes over `r`, which is there when it runs. */
  ghost predicate Overwrites(g: Graph, plan: Plan, i: nat, r: nat)
    requires |plan| == |g.tensors|
  {
    && i < |g.nodes| && Writes(g, i) && Owned(g, Root(g, g.nodes[i])) && Placed(g, r, i + 1)
    && Root(g, g.nodes[i]) != r && !TensorsApart(g, plan, r, Root(g, g.nodes[i]))
  }

  /** The node that computes `r` is not still to come. */
  lemma OnlyViewsFollow(g: Graph, i: nat, r: nat, k: nat)
    requires WellFormed(g) && LeafsApart(g) && Placed(g, r, i + 1) && i < k < |g.nodes|
    requires Writes(g, k) && Root(g, g.nodes[k]) == r
    ensures IsView(g, g.nodes[k])
  {
  }

  /** Every node reads its operands before it writes. */
  ghost predicate NothingTorn(g: Graph, plan: Plan)
    requires |plan| == |g.tensors|
  {
    forall k :: 0 <= k < |g.nodes| && Writes(g, k) ==> OperandsSafe(g, plan, k)
  }

  /** A node turns no one in `r` into anything else. */
  lemma OneIsKept(g: Graph, plan: Plan, f: Store, r: nat, l: Loc, k: nat)
    requires |plan| == |g.tensors| && Owned(g, r) && k < |g.nodes| && f.mem(l) == 1
    requires Covered(plan[r], Size(g, r, plan[r].buffer), l)
    requires Root(g, g.nodes[k]) == r ==> IsView(g, g.nodes[k])
    ensures Write(g, plan, f, Root(g, g.nodes[k]), Result(g, Poisonous(g, plan, r), k, Seen(g, plan, f))).mem(l) == 1
  {
    if Root(g, g.nodes[k]) == r {
      assert Result(g, Poisonous(g, plan, r), k, Seen(g, plan, f)) == Read(g, plan, f, r);
      ReadsByte(g, plan, f, r, l);
    } else {
      assert Result(g, Poisonous(g, plan, r), k, Seen(g, plan, f)) == Bytes(RootSize(g, plan, k), 1);
    }
  }

  /** In flat memory a one appears in `r` and stays there. */
  lemma {:induction false} OneStays(g: Graph, plan: Plan, s: Store, i: nat, r: nat, l: Loc, n: nat)
    requires WellFormed(g) && LeafsApart(g) && |plan| == |g.tensors| && Overwrites(g, plan, i, r)
    requires Shared(g, plan, r, Root(g, g.nodes[i]), l) && i < n <= |g.nodes| && NothingTorn(g, plan)
    ensures RunFlat(g, plan, Poisonous(g, plan, r), s, n).mem(l) == 1
  {
    var k, ops := n - 1, Poisonous(g, plan, r);
    var f := RunFlat(g, plan, ops, s, k);
    if i < k {
      OneStays(g, plan, s, i, r, l, k);
      if Writes(g, k) {
        if Root(g, g.nodes[k]) == r { OnlyViewsFollow(g, i, r, k); }
        OneIsKept(g, plan, f, r, l, k);
      }
    } else {
      assert Result(g, ops, k, Seen(g, plan, f)) == Bytes(RootSize(g, plan, k), 1);
    }
  }

  /** So `r` differs from then on. */
  lemma OneShows(g: Graph, plan: Plan, s: Store, i: nat, r: nat, n: nat)
    requires WellFormed(g) && LeafsApart(g) && |plan| == |g.tensors| && Overwrites(g, plan, i, r) && i < n <= |g.nodes|
    requires NothingTorn(g, plan)
    ensures Read(g, plan, RunFlat(g, plan, Poisonous(g, plan, r), s, n), r)
              != RunPrivate(g, Poisonous(g, plan, r), Zeros(g, plan), n)(r)
  {
    var l := SharedByte(g, plan, r, Root(g, g.nodes[i]));
    OneStays(g, plan, s, i, r, l, n);
    ZerosStay(g, plan, r, n);
    ReadsByte(g, plan, RunFlat(g, plan, Poisonous(g, plan, r), s, n), r, l);
  }

  /** The end of the run, or a node after `i`, is where this shows. */
  ghost predicate ShowsSomewhere(g: Graph, plan: Plan, ops: Ops, s: Store, init: Contents)
    requires |plan| == |g.tensors|
  {
    || !SameEnd(g, plan, ops, s, init)
    || (exists k :: 0 <= k < |g.nodes| && ShowsAt(g, plan, ops, s, init, k))
  }

  ghost predicate ShowsAt(g: Graph, plan: Plan, ops: Ops, s: Store, init: Contents, k: nat)
    requires |plan| == |g.tensors| && k < |g.nodes|
  {
    !SameSources(g, plan, ops, s, init, k) || (Writes(g, k) && !SameOutcome(g, plan, ops, s, init, k))
  }

  lemma ReaderSees(g: Graph, plan: Plan, s: Store, i: nat, r: nat, k: nat)
    requires WellFormed(g) && LeafsApart(g) && |plan| == |g.tensors| && Overwrites(g, plan, i, r)
    requires NothingTorn(g, plan)
    requires i < k && Uses(g, k, r)
    ensures k < |g.nodes| && ShowsAt(g, plan, Poisonous(g, plan, r), s, Zeros(g, plan), k)
  {
    if CountedView(g, g.nodes[k], r) {
      OneShows(g, plan, s, i, r, k + 1);
    } else {
      OneShows(g, plan, s, i, r, k);
      var j :| 0 <= j < |Src(g, k)| && Root(g, Src(g, k)[j]) == r;
    }
  }

  lemma LostValueShowsSomewhere(g: Graph, plan: Plan, s: Store, i: nat, r: nat)
    requires WellFormed(g) && LeafsApart(g) && |plan| == |g.tensors| && Overwrites(g, plan, i, r)
    requires NothingTorn(g, plan)
    requires NeededAfter(g, r, i)
    ensures ShowsSomewhere(g, plan, Poisonous(g, plan, r), s, Zeros(g, plan))
  {
    if Persistent(g, r) {
      PlacedGrows(g, r, i + 1, |g.nodes|);
      OneShows(g, plan, s, i, r, |g.nodes|);
    } else {
      var k :| i < k && Uses(g, k, r);
      ReaderSees(g, plan, s, i, r, k);
    }
  }

  /** If a node writes over what is needed later, whoever needs it can see it. */
  lemma LostValueShows(g: Graph, plan: Plan, i: nat, r: nat)
    requires WellFormed(g) && LeafsApart(g) && InitialApart(g, plan) && Overwrites(g, plan, i, r)
    requires NothingTorn(g, plan)
    requires NeededAfter(g, r, i)
    ensures !RunsLikePrivate(g, plan)
  {
    var s := LoadedStore(g, plan, Zeros(g, plan));
    assert FitsPlan(g, plan, Poisonous(g, plan, r));
    LostValueShowsSomewhere(g, plan, s, i, r);
  }

  /** Flat memory behaves like private storage exactly if no node writes over anything that is still
      to be read. */
  lemma PrivateIffNonInterfering(g: Graph, plan: Plan)
    requires WellFormed(g) && LeafsApart(g) && InitialApart(g, plan)
    ensures RunsLikePrivate(g, plan) <==> NonInterfering(g, plan)
  {
    if NonInterfering(g, plan) {
      NonInterferingRunsLikePrivate(g, plan);
    } else if !NothingTorn(g, plan) {
      var i :| 0 <= i < |g.nodes| && Writes(g, i) && !OperandsSafe(g, plan, i);
      TornOperandShows(g, plan, i);
    } else {
      var i :| 0 <= i < |g.nodes| && Writes(g, i) && !NodeHarmless(g, plan, i);
      var r: nat :| Placed(g, r, i + 1) && NeededAfter(g, r, i) && r != Root(g, g.nodes[i])
                    && !TensorsApart(g, plan, r, Root(g, g.nodes[i]));
      LostValueShows(g, plan, i, r);
    }
  }

  // ---- and the inputs

  /** Every choice of input values can be set up. */
  ghost predicate Loadable(g: Graph, plan: Plan) {
    |plan| == |g.tensors| && forall init :: InitFits(g, plan, init) ==> exists s :: Loaded(g, plan, s, init)
  }

  /** Every choice of inputs can be set up, and gives what it gives in private storage. */
  ghost predicate Serves(g: Graph, plan: Plan) {
    Loadable(g, plan) && RunsLikePrivate(g, plan)
  }

  /** Zeros, but ones in `w`. */
  function ZerosBut(g: Graph, plan: Plan, w: nat): Contents
    requires |plan| == |g.tensors|
  {
    (r: nat) => Bytes(InitSize(g, plan, r), if r == w then 1 else 0)
  }

  lemma LoadableIffApart(g: Graph, plan: Plan)
    requires |plan| == |g.tensors|
    ensures Loadable(g, plan) <==> InitialApart(g, plan)
  {
    if InitialApart(g, plan) {
      forall init | InitFits(g, plan, init) ensures exists s :: Loaded(g, plan, s, init) {
        var s := LoadedStore(g, plan, init);
      }
    } else {
      var r: nat, w: nat :| Placed(g, r, 0) && Placed(g, w, 0) && r != w && !TensorsApart(g, plan, r, w);
      var init := ZerosBut(g, plan, w);
      var l := SharedByte(g, plan, r, w);
      forall s ensures !Loaded(g, plan, s, init) {
        ReadsByte(g, plan, s, r, l);
        ReadsByte(g, plan, s, w, l);
      }
      assert InitFits(g, plan, init);
    }
  }

  /** Main theorem: a plan serves a graph exactly if what is filled in beforehand does not overlap and
      no node writes over anything that is still to be read. */
  lemma ServesIffNonInterfering(g: Graph, plan: Plan)
    requires WellFormed(g) && LeafsApart(g) && |plan| == |g.tensors|
    ensures Serves(g, plan) <==> InitialApart(g, plan) && NonInterfering(g, plan)
  {
    LoadableIffApart(g, plan);
    if InitialApart(g, plan) { PrivateIffNonInterfering(g, plan); }
  }
}
