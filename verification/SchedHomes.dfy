/** Where the scheduler puts a tensor, stated on the graph and the ids alone: what decides in pass 1, which
    backend is the better one in pass 3, and whom the rest follows in pass 4. */
module SchedHomes {
  import opened Wrappers
  import opened SchedGraphs
  import opened SchedAssign
  import opened SchedSettings

  /** `t` is in memory `buf` that was assigned beforehand; a view is where its root is. */
  predicate LivesIn(g: OpGraph, t: nat, buf: Buffer)
    requires t < |g.tensors|
  {
    match g.tensors[t].viewSrc
    case None => g.tensors[t].buffer == Some(buf)
    case Some(root) => g.tensors[root].buffer == Some(buf)
  }

  /** Backend `b` supports the operation of `t` and reads the memory `buf`. */
  predicate RunsOn(e: Backends, buf: Buffer, t: nat, b: nat) {
    b < |e.bufts| && e.supportsOp(b, t) && e.supportsBuft(b, buf.buft)
  }

  ghost predicate FirstRunsOn(e: Backends, buf: Buffer, t: nat, b: nat) {
    RunsOn(e, buf, t, b) && forall c: nat :: c < b ==> !RunsOn(e, buf, t, c)
  }

  /** No backend supports the operation of `t` where `t` lives, if it lives anywhere. */
  ghost predicate Homeless(g: OpGraph, e: Backends, t: nat)
    requires t < |g.tensors|
  {
    forall buf, b: nat :: LivesIn(g, t, buf) ==> !RunsOn(e, buf, t, b)
  }

  /** `t` is on `home`, or, if it is a computing node, on a backend of higher priority that allocates in the
      same buffer type. */
  ghost predicate EndsFrom(g: OpGraph, e: Backends, ids: seq<int>, t: nat, home: int)
    requires t < |g.tensors|
  {
    && |ids| == |g.tensors| && 0 <= ids[t] <= home < |e.bufts| && e.bufts[ids[t]] == e.bufts[home]
    && (ids[t] < home ==> t in g.nodes && Computing(g, t))
  }

  // ---- pass 1: memory, inputs, weights

  lemma KeptThroughPasses(g: OpGraph, e: Backends, s1: seq<int>, s2: seq<int>, s3: seq<int>, t: nat)
    requires IdsOk(g, e, s1) && IdsOk(g, e, s2) && Expanded(g, e, s1, s2) && Upgraded(g, e, s2, s3, |g.nodes|)
    requires t < |g.tensors| && s1[t] != UNASSIGNED
    ensures EndsFrom(g, e, s3, t, s1[t])
  {
    ExpandedSupports(g, e, s1, s2);
    UpgradeLowers(g, e, s2, s3, t);
    if t !in g.nodes { SettledInPassOne(g, e, s1, s2, s3, t); }
  }

  lemma SuggestedInThree(g: OpGraph, e: Backends, pinned: seq<int>, s3: seq<int>, t: nat, home: int)
    requires IdsOk(g, e, pinned) && ThreePasses(g, e, pinned, s3)
    requires t in g.leafs + g.nodes && pinned[t] == UNASSIGNED && Suggested(g, e, t, home) && home != UNASSIGNED
    ensures IdsOk(g, e, s3) && EndsFrom(g, e, s3, t, home)
  {
    var s1: seq<int>, s2: seq<int> :|
      && IdsOk(g, e, s1) && FilledFromMemory(g, e, pinned, s1, g.leafs + g.nodes)
      && IdsOk(g, e, s2) && Expanded(g, e, s1, s2)
      && IdsOk(g, e, s3) && Upgraded(g, e, s2, s3, |g.nodes|);
    assert s1[t] == home by {
      assert FilledAt(g, e, pinned[t], s1[t], t, g.leafs + g.nodes);
      SuggestionIsUnique(g, e, t, s1[t], home);
    }
    KeptThroughPasses(g, e, s1, s2, s3, t);
  }

  lemma RestKeeps(g: OpGraph, e: Backends, before: seq<int>, ids: seq<int>, ok: bool)
    requires Ordered(g) && IdsOk(g, e, before) && RestOutcome(g, e, before, ids, ok)
    ensures OnlyFills(before, ids)
  {
    var trace: seq<seq<int>> :| RestEnds(g, e, before, trace, ok) && ids == trace[|trace| - 1];
    RestFills(g, e, before, trace, |trace| - 1);
  }

  lemma SuggestedIsKept(g: OpGraph, e: Backends, pinned: seq<int>, ids: seq<int>, ok: bool, t: nat, home: int)
    requires Ordered(g) && IdsOk(g, e, pinned) && Outcome(g, e, pinned, ids, ok)
    requires t in g.leafs + g.nodes && pinned[t] == UNASSIGNED && Suggested(g, e, t, home) && home != UNASSIGNED
    ensures EndsFrom(g, e, ids, t, home)
  {
    var s3: seq<int> :| ThreePasses(g, e, pinned, s3) && RestOutcome(g, e, s3, ids, ok);
    SuggestedInThree(g, e, pinned, s3, t, home);
    RestKeeps(g, e, s3, ids, ok);
  }

  lemma FitsIsRunsOn(g: OpGraph, e: Backends, t: nat, op: nat, buf: Buffer, b: nat)
    requires t < |g.tensors| && LivesIn(g, t, buf) && FirstRunsOn(e, buf, op, b)
    ensures FirstFit(g, e, t, op, b)
  {
    assert FitsMemory(g, e, t, op, b);
    forall c: nat | c < b ensures !FitsMemory(g, e, t, op, c) { assert !RunsOn(e, buf, op, c); }
  }

  lemma HomelessHasNoFit(g: OpGraph, e: Backends, t: nat)
    requires Ordered(g) && t < |g.tensors| && Homeless(g, e, t)
    ensures !HasFit(g, e, t, t) && !HasFit(g, e, Root(g, t), t)
  {
    if b: nat :| b < |e.bufts| && FitsMemory(g, e, t, t, b) {
      assert LivesIn(g, t, MemoryOf(g, t).value) && RunsOn(e, MemoryOf(g, t).value, t, b);
    }
    if b: nat :| b < |e.bufts| && FitsMemory(g, e, Root(g, t), t, b) {
      assert LivesIn(g, t, MemoryOf(g, t).value) && RunsOn(e, MemoryOf(g, t).value, t, b);
    }
  }

  /** A tensor without an id that lives in memory goes to the first backend that reads it and supports the
      operation; */
  lemma MemoryDecides(g: OpGraph, e: Backends, pinned: seq<int>, ids: seq<int>, ok: bool, t: nat, buf: Buffer, b: nat)
    requires Ordered(g) && IdsOk(g, e, pinned) && Outcome(g, e, pinned, ids, ok)
    requires t in g.leafs + g.nodes && pinned[t] == UNASSIGNED && LivesIn(g, t, buf) && FirstRunsOn(e, buf, t, b)
    ensures EndsFrom(g, e, ids, t, b)
  {
    FitsIsRunsOn(g, e, t, t, buf, b);
    SuggestedIsKept(g, e, pinned, ids, ok, t, b);
  }

  lemma InputSuggestsLast(g: OpGraph, e: Backends, t: nat)
    requires Ordered(g) && t < |g.tensors| && Homeless(g, e, t) && g.tensors[t].input
    ensures Suggested(g, e, t, |e.bufts| - 1)
  {
    HomelessHasNoFit(g, e, t);
  }

  /** if there is none, an input goes to the last backend; */
  lemma InputsGoLast(g: OpGraph, e: Backends, pinned: seq<int>, ids: seq<int>, ok: bool, t: nat)
    requires Ordered(g) && IdsOk(g, e, pinned) && Outcome(g, e, pinned, ids, ok)
    requires t in g.leafs + g.nodes && pinned[t] == UNASSIGNED && Homeless(g, e, t) && g.tensors[t].input
    ensures EndsFrom(g, e, ids, t, |e.bufts| - 1)
  {
    InputSuggestsLast(g, e, t);
    SuggestedIsKept(g, e, pinned, ids, ok, t, |e.bufts| - 1);
  }

  /** `t` is no rope, and slot `j` is its first source in a buffer of weights. */
  ghost predicate ReadsWeightFirst(g: OpGraph, t: nat, j: nat)
    requires t < |g.tensors|
  {
    var src := g.tensors[t].src;
    && !g.tensors[t].rope && j < |src|
    && g.tensors[src[j]].buffer.Some? && g.tensors[src[j]].buffer.value.weights
    && forall k :: 0 <= k < j && g.tensors[src[k]].buffer.Some? ==> !g.tensors[src[k]].buffer.value.weights
  }

  /** Backend `b` is the first before the last one that supports the operation of `t` and offers to take it
      over. */
  ghost predicate FirstOffers(e: Backends, t: nat, b: nat) {
    && b < |e.bufts| - 1 && e.supportsOp(b, t) && e.offload(b, t)
    && forall c: nat :: c < b && e.supportsOp(c, t) ==> !e.offload(c, t)
  }

  lemma WeightSuggests(g: OpGraph, e: Backends, t: nat, j: nat, id: int)
    requires Ordered(g) && t < |g.tensors| && Homeless(g, e, t) && !g.tensors[t].input && ReadsWeightFirst(g, t, j)
    requires FollowsWeight(g, e, t, g.tensors[t].src[j], id)
    ensures Suggested(g, e, t, id)
  {
    HomelessHasNoFit(g, e, t);
    assert IsWeight(g, t, j);
    forall k: nat | k < j ensures !IsWeight(g, t, k) {
      assert g.tensors[g.tensors[t].src[k]].buffer.Some? ==> !g.tensors[g.tensors[t].src[k]].buffer.value.weights;
    }
    assert FirstWeight(g, t, j);
  }

  lemma WeightIsFollowed(g: OpGraph, e: Backends, t: nat, src: nat, buf: Buffer, b: nat)
    requires src < |g.tensors| && g.tensors[src].buffer.Some? && LivesIn(g, src, buf) && FirstRunsOn(e, buf, t, b)
    requires !e.opOffload || !g.tensors[src].buffer.value.host || b < |e.bufts| - 1
             || forall c: nat :: !FirstOffers(e, t, c)
    ensures FollowsWeight(g, e, t, src, b)
  {
    FitsIsRunsOn(g, e, src, t, buf, b);
    if c: nat :| TakenOver(g, e, t, src) && c < |e.bufts| - 1 && WillOffload(e, t, c) {
      LeastOffer(e, t, c);
    }
  }

  /** anything else follows its first weight; */
  lemma WeightDecides(g: OpGraph, e: Backends, pinned: seq<int>, ids: seq<int>, ok: bool, t: nat, j: nat, buf: Buffer,
                      b: nat)
    requires Ordered(g) && IdsOk(g, e, pinned) && Outcome(g, e, pinned, ids, ok)
    requires t in g.leafs + g.nodes && pinned[t] == UNASSIGNED && Homeless(g, e, t) && !g.tensors[t].input
    requires ReadsWeightFirst(g, t, j) && LivesIn(g, g.tensors[t].src[j], buf) && FirstRunsOn(e, buf, t, b)
    requires !e.opOffload || !g.tensors[g.tensors[t].src[j]].buffer.value.host || b < |e.bufts| - 1
             || forall c: nat :: !FirstOffers(e, t, c)
    ensures EndsFrom(g, e, ids, t, b)
  {
    WeightIsFollowed(g, e, t, g.tensors[t].src[j], buf, b);
    WeightSuggests(g, e, t, j, b);
    SuggestedIsKept(g, e, pinned, ids, ok, t, b);
  }

  lemma {:induction false} LeastOffer(e: Backends, t: nat, c: nat)
    requires c < |e.bufts| - 1 && WillOffload(e, t, c)
    ensures exists b: nat :: FirstOffers(e, t, b)
  {
    if d: nat :| d < c && WillOffload(e, t, d) { LeastOffer(e, t, d); } else {
      forall d: nat | d < c && e.supportsOp(d, t) ensures !e.offload(d, t) { assert !WillOffload(e, t, d); }
      assert FirstOffers(e, t, c);
    }
  }

  lemma OfferIsFollowed(g: OpGraph, e: Backends, t: nat, src: nat, buf: Buffer, b: nat)
    requires src < |g.tensors| && g.tensors[src].buffer.Some? && g.tensors[src].buffer.value.host && e.opOffload
    requires LivesIn(g, src, buf) && FirstRunsOn(e, buf, t, |e.bufts| - 1) && FirstOffers(e, t, b)
    ensures FollowsWeight(g, e, t, src, b)
  {
    FitsIsRunsOn(g, e, src, t, buf, |e.bufts| - 1);
    assert WillOffload(e, t, b);
  }

  /** but from the last backend, if the weight is in host memory, the first one takes it over that offers to. */
  lemma OfferDecides(g: OpGraph, e: Backends, pinned: seq<int>, ids: seq<int>, ok: bool, t: nat, j: nat, buf: Buffer,
                     b: nat)
    requires Ordered(g) && IdsOk(g, e, pinned) && Outcome(g, e, pinned, ids, ok)
    requires t in g.leafs + g.nodes && pinned[t] == UNASSIGNED && Homeless(g, e, t) && !g.tensors[t].input
    requires ReadsWeightFirst(g, t, j) && LivesIn(g, g.tensors[t].src[j], buf) && FirstRunsOn(e, buf, t, |e.bufts| - 1)
    requires e.opOffload && g.tensors[g.tensors[t].src[j]].buffer.value.host && FirstOffers(e, t, b)
    ensures EndsFrom(g, e, ids, t, b)
  {
    OfferIsFollowed(g, e, t, g.tensors[t].src[j], buf, b);
    WeightSuggests(g, e, t, j, b);
    SuggestedIsKept(g, e, pinned, ids, ok, t, b);
  }

  // ---- pass 3: better backends

  /** No node reads or looks at one that comes later. */
  ghost predicate ReadsEarlier(g: OpGraph) {
    forall i, j, k :: 0 <= i <= k < |g.nodes| && 0 <= j < |Src(g, i)| ==> Root(g, Src(g, i)[j]) != g.nodes[k]
  }

  /** The backend `u` is on; a view without one is where its root is. */
  function PlaceOf(g: OpGraph, ids: seq<int>, u: nat): int
    requires u < |g.tensors| == |ids|
  {
    if ids[u] == UNASSIGNED && g.tensors[u].viewSrc.Some? then ids[g.tensors[u].viewSrc.value] else ids[u]
  }

  /** Backend `b` reads the memory `u` lives in, or else that of the backend it is on. */
  ghost predicate Reads(g: OpGraph, e: Backends, ids: seq<int>, u: nat, b: nat)
    requires u < |g.tensors| == |ids|
  {
    if exists buf :: LivesIn(g, u, buf) then exists buf :: LivesIn(g, u, buf) && e.supportsBuft(b, buf.buft)
    else 0 <= PlaceOf(g, ids, u) < |e.bufts| && e.supportsBuft(b, e.bufts[PlaceOf(g, ids, u)])
  }

  lemma SupportedIsReads(g: OpGraph, e: Backends, ids: seq<int>, u: nat, b: nat)
    requires u < |g.tensors| == |ids|
    ensures BufferSupported(g, e, ids, u, b) <==> Reads(g, e, ids, u, b)
    ensures Located(g, ids, u) <==> PlaceOf(g, ids, u) != UNASSIGNED
  {
    if MemoryOf(g, u).Some? { assert LivesIn(g, u, MemoryOf(g, u).value); }
  }

  /** What a node reads has its final id when pass 3 comes to the node. */
  lemma SourcesAreFinal(g: OpGraph, e: Backends, before: seq<int>, after: seq<int>, i: nat, j: nat)
    requires Ordered(g) && ReadsEarlier(g) && Upgraded(g, e, before, after, |g.nodes|)
    requires i < |g.nodes| && j < |Src(g, i)|
    ensures var u, mid := Src(g, i)[j], Midway(g, before, after, i);
            mid[u] == after[u] && mid[Root(g, u)] == after[Root(g, u)]
  {
    FinalUnlessLater(g, e, before, after, i, Root(g, Src(g, i)[j]));
    forall k | i <= k < |g.nodes| ensures g.nodes[k] != Src(g, i)[j] { assert g.nodes[k] !in Src(g, i); }
    FinalUnlessLater(g, e, before, after, i, Src(g, i)[j]);
  }

  lemma FinalUnlessLater(g: OpGraph, e: Backends, before: seq<int>, after: seq<int>, i: nat, u: nat)
    requires Upgraded(g, e, before, after, |g.nodes|) && i < |g.nodes| && u < |g.tensors|
    requires forall k :: i <= k < |g.nodes| ==> g.nodes[k] != u
    ensures Midway(g, before, after, i)[u] == after[u]
  {
    if u !in g.nodes[..i] { assert u !in g.nodes[..|g.nodes|]; }
  }

  /** A computing node with an id ends on the backend of highest priority, up to its own, that allocates in the
      same buffer type, supports the operation and reads every source. */
  lemma UpgradedToBest(g: OpGraph, e: Backends, before: seq<int>, after: seq<int>, i: nat)
    requires Ordered(g) && ReadsEarlier(g) && IdsOk(g, e, before) && Upgraded(g, e, before, after, |g.nodes|)
    requires i < |g.nodes| && Computing(g, g.nodes[i]) && before[g.nodes[i]] != UNASSIGNED
    ensures var t := g.nodes[i];
            && 0 <= after[t] <= before[t] && e.bufts[after[t]] == e.bufts[before[t]]
            && (after[t] < before[t] ==>
                e.supportsOp(after[t], t)
                && forall j :: 0 <= j < |Src(g, i)| ==> Reads(g, e, after, Src(g, i)[j], after[t]))
            && forall b: nat :: b < after[t] && e.bufts[b] == e.bufts[before[t]] && e.supportsOp(b, t) ==>
                 exists j :: 0 <= j < |Src(g, i)| && !Reads(g, e, after, Src(g, i)[j], b)
  {
    var t, mid := g.nodes[i], Midway(g, before, after, i);
    assert Decided(g, e, before, after, i);
    assert t !in g.nodes[..i];
    forall j, b: nat | 0 <= j < |Src(g, i)|
      ensures BufferSupported(g, e, mid, Src(g, i)[j], b) <==> Reads(g, e, after, Src(g, i)[j], b)
    {
      SourcesAreFinal(g, e, before, after, i, j);
      SupportedIsReads(g, e, mid, Src(g, i)[j], b);
    }
    if after[t] < before[t] { assert CanMoveTo(g, e, mid, t, after[t]); }
    forall b: nat | b < after[t] && e.bufts[b] == e.bufts[before[t]] && e.supportsOp(b, t)
      ensures exists j :: 0 <= j < |Src(g, i)| && !Reads(g, e, after, Src(g, i)[j], b)
    {
      assert !CanMoveTo(g, e, mid, t, b);
    }
  }

  /** `u` has a backend, and backend `b` reads it. */
  ghost predicate ReadsPlaced(g: OpGraph, e: Backends, ids: seq<int>, u: nat, b: nat)
    requires u < |g.tensors| == |ids|
  {
    PlaceOf(g, ids, u) != UNASSIGNED && Reads(g, e, ids, u, b)
  }

  /** The source slots that hold something with a backend and that backend `b` reads. */
  ghost function ReadSlots(g: OpGraph, e: Backends, ids: seq<int>, src: seq<nat>, b: nat): set<nat>
    requires |ids| == |g.tensors| && forall j :: 0 <= j < |src| ==> src[j] < |ids|
  {
    set j: nat | j < |src| && ReadsPlaced(g, e, ids, src[j], b)
  }

  lemma OneMoreSlot(g: OpGraph, e: Backends, ids: seq<int>, src: seq<nat>, b: nat)
    requires src != [] && |ids| == |g.tensors| && forall j :: 0 <= j < |src| ==> src[j] < |ids|
    ensures var n: nat := |src| - 1;
            |ReadSlots(g, e, ids, src, b)| == |ReadSlots(g, e, ids, src[..n], b)|
              + if ReadsPlaced(g, e, ids, src[n], b) then 1 else 0
  {
    var n: nat := |src| - 1;
    var last: set<nat> := if ReadsPlaced(g, e, ids, src[n], b) then {n} else {};
    var all, rest := ReadSlots(g, e, ids, src, b), ReadSlots(g, e, ids, src[..n], b);
    forall j: nat ensures j in all <==> j in rest + last {
      if j < n { assert src[..n][j] == src[j]; }
    }
    assert all == rest + last;
  }

  lemma {:induction false} CountIsReadSlots(g: OpGraph, e: Backends, mid: seq<int>, ids: seq<int>, src: seq<nat>,
                                            b: nat)
    requires |mid| == |ids| == |g.tensors| && forall j :: 0 <= j < |src| ==> src[j] < |ids|
    requires forall j :: 0 <= j < |src| ==> mid[src[j]] == ids[src[j]] && mid[Root(g, src[j])] == ids[Root(g, src[j])]
    ensures CountSupported(g, e, mid, src, b) == |ReadSlots(g, e, ids, src, b)|
  {
    if src == [] {
      assert ReadSlots(g, e, ids, src, b) == {};
    } else {
      var n := |src| - 1;
      CountIsReadSlots(g, e, mid, ids, src[..n], b);
      OneMoreSlot(g, e, ids, src, b);
      SupportedIsReads(g, e, mid, src[n], b);
      SupportedIsReads(g, e, ids, src[n], b);
    }
  }

  /** A computing node without an id ends on the backend that reads most of its sources, the first one on ties,
      and on none only if none supports the operation. */
  lemma UnassignedGoesToSources(g: OpGraph, e: Backends, before: seq<int>, after: seq<int>, i: nat, b: nat)
    requires Ordered(g) && ReadsEarlier(g) && IdsOk(g, e, before) && Upgraded(g, e, before, after, |g.nodes|)
    requires i < |g.nodes| && Computing(g, g.nodes[i]) && before[g.nodes[i]] == UNASSIGNED
    requires b < |e.bufts| && e.supportsOp(b, g.nodes[i])
    ensures var t := g.nodes[i];
            && 0 <= after[t] < |e.bufts| && e.supportsOp(after[t], t)
            && |ReadSlots(g, e, after, Src(g, i), b)| <= |ReadSlots(g, e, after, Src(g, i), after[t])|
            && (b < after[t] ==>
                |ReadSlots(g, e, after, Src(g, i), b)| < |ReadSlots(g, e, after, Src(g, i), after[t])|)
  {
    var t, mid := g.nodes[i], Midway(g, before, after, i);
    assert Decided(g, e, before, after, i);
    assert t !in g.nodes[..i];
    assert BestAmong(g, e, mid, t, |e.bufts|, after[t]);
    forall j | 0 <= j < |Src(g, i)|
      ensures mid[Src(g, i)[j]] == after[Src(g, i)[j]] && mid[Root(g, Src(g, i)[j])] == after[Root(g, Src(g, i)[j])]
    {
      SourcesAreFinal(g, e, before, after, i, j);
    }
    CountIsReadSlots(g, e, mid, after, Src(g, i), b);
    CountIsReadSlots(g, e, mid, after, Src(g, i), after[t]);
  }

  // ---- pass 4: the rest

  /** No node before the `n`-th is `x` or reads it. */
  ghost predicate NotMet(g: OpGraph, x: nat, n: nat) {
    n <= |g.nodes| && forall k :: 0 <= k < n ==> g.nodes[k] != x && x !in Src(g, k)
  }

  /** Node `i` is the first that is `x` or reads it. */
  ghost predicate FirstMet(g: OpGraph, x: nat, i: nat) {
    i < |g.nodes| && (g.nodes[i] == x || x in Src(g, i)) && NotMet(g, x, i)
  }

  lemma {:induction false} NotMetYet(g: OpGraph, e: Backends, before: seq<int>, trace: seq<seq<int>>, n: nat, x: nat)
    requires Ordered(g) && IdsOk(g, e, before) && RestRun(g, e, before, trace) && n < |trace| && x < |before|
    requires NotMet(g, x, n)
    ensures |trace[n]| == |before| && trace[n][x] == before[x]
  {
    if n > 0 {
      NotMetYet(g, e, before, trace, n - 1, x);
      RestFills(g, e, before, trace, n - 1);
      RestNext(g, e, before, trace, n - 1);
    }
  }

  lemma {:induction false} StaysFilled(g: OpGraph, e: Backends, before: seq<int>, trace: seq<seq<int>>, m: nat, n: nat,
                                       x: nat)
    requires Ordered(g) && IdsOk(g, e, before) && RestRun(g, e, before, trace) && m <= n < |trace| && x < |before|
    requires |trace[m]| == |before| && trace[m][x] != UNASSIGNED
    ensures |trace[n]| == |before| && trace[n][x] == trace[m][x]
  {
    if m < n {
      StaysFilled(g, e, before, trace, m, n - 1, x);
      RestFills(g, e, before, trace, n - 1);
      RestNext(g, e, before, trace, n - 1);
    }
  }

  lemma EndsAsDecided(g: OpGraph, e: Backends, before: seq<int>, trace: seq<seq<int>>, m: nat, x: nat)
    requires Ordered(g) && IdsOk(g, e, before) && RestRun(g, e, before, trace) && m < |trace| && x < |before|
    ensures |trace[m]| == |trace[|trace| - 1]| == |before|
    ensures trace[m][x] != UNASSIGNED ==> trace[|trace| - 1][x] == trace[m][x]
  {
    RestFills(g, e, before, trace, m);
    RestFills(g, e, before, trace, |trace| - 1);
    if trace[m][x] != UNASSIGNED { StaysFilled(g, e, before, trace, m, |trace| - 1, x); }
  }

  /** The ids when pass 4 comes to the first node that is or reads `x`, which then decides about `x`. */
  ghost predicate IdsThen(g: OpGraph, e: Backends, before: seq<int>, ids: seq<int>, now: seq<int>, x: nat, i: nat)
    requires i < |g.nodes|
  {
    && IdsOk(g, e, now) && OnlyFills(before, now) && x < |now| == |ids| && now[x] == before[x]
    && (forall y :: 0 <= y < |now| && NotMet(g, y, i) ==> now[y] == before[y])
    && (RestAt(g, e, now, i)[x] != UNASSIGNED ==> ids[x] == RestAt(g, e, now, i)[x])
  }

  lemma MeetingIn(g: OpGraph, e: Backends, before: seq<int>, trace: seq<seq<int>>, x: nat, i: nat)
    requires Ordered(g) && IdsOk(g, e, before) && RestRun(g, e, before, trace) && i + 1 < |trace|
    requires x < |before| && FirstMet(g, x, i)
    ensures IdsThen(g, e, before, trace[|trace| - 1], trace[i], x, i)
  {
    var now := trace[i];
    RestFills(g, e, before, trace, i);
    forall y | 0 <= y < |now| && NotMet(g, y, i) ensures now[y] == before[y] {
      NotMetYet(g, e, before, trace, i, y);
    }
    assert now[x] == before[x] by { NotMetYet(g, e, before, trace, i, x); }
    assert StepAt(g, e, trace, i);
    EndsAsDecided(g, e, before, trace, i + 1, x);
  }

  lemma IdsAtMeeting(g: OpGraph, e: Backends, before: seq<int>, ids: seq<int>, ok: bool, x: nat, i: nat)
    returns (now: seq<int>)
    requires Ordered(g) && IdsOk(g, e, before) && RestOutcome(g, e, before, ids, ok) && ok
    requires x < |before| && FirstMet(g, x, i)
    ensures IdsThen(g, e, before, ids, now, x, i)
  {
    var trace: seq<seq<int>> :| RestEnds(g, e, before, trace, ok) && ids == trace[|trace| - 1];
    MeetingIn(g, e, before, trace, x, i);
    now := trace[i];
  }

  lemma {:induction false} SlotsFollow(g: OpGraph, ids: seq<int>, i: nat, j: nat, x: nat, home: nat)
    requires |ids| == |g.tensors| && i < |g.nodes| && j <= |Src(g, i)| && x < |ids| && ids[x] == UNASSIGNED
    requires home == if g.tensors[x].viewSrc.Some? then g.tensors[x].viewSrc.value else g.nodes[i]
    requires ids[home] != UNASSIGNED
    ensures AfterSlots(g, ids, i, j)[home] == ids[home]
    ensures AfterSlots(g, ids, i, j)[x] == if x in Src(g, i)[..j] then ids[home] else UNASSIGNED
  {
    if j > 0 {
      SlotsFollow(g, ids, i, j - 1, x, home);
      assert Src(g, i)[..j] == Src(g, i)[..j - 1] + [Src(g, i)[j - 1]];
    }
  }

  lemma ViewReadFollowsRoot(g: OpGraph, e: Backends, ids: seq<int>, i: nat, x: nat)
    requires IdsOk(g, e, ids) && i < |g.nodes| && x < |ids| && x in Src(g, i) && x != g.nodes[i]
    requires ids[x] == UNASSIGNED && g.tensors[x].viewSrc.Some? && ids[g.tensors[x].viewSrc.value] != UNASSIGNED
    ensures RestAt(g, e, ids, i)[x] == ids[g.tensors[x].viewSrc.value]
  {
    SlotsFollow(g, AfterView(g, ids, i), i, |Src(g, i)|, x, g.tensors[x].viewSrc.value);
    assert Src(g, i)[..|Src(g, i)|] == Src(g, i);
  }

  /** What no node computes and has no id goes to the backend of its first reader, if that has one; */
  lemma FollowsItsReader(g: OpGraph, e: Backends, before: seq<int>, ids: seq<int>, ok: bool, x: nat, i: nat)
    requires Ordered(g) && IdsOk(g, e, before) && RestOutcome(g, e, before, ids, ok) && ok
    requires x < |before| && before[x] == UNASSIGNED && g.tensors[x].viewSrc.None? && x !in g.nodes
    requires FirstMet(g, x, i) && before[g.nodes[i]] != UNASSIGNED
    ensures |ids| == |before| && ids[x] == before[g.nodes[i]]
  {
    var now := IdsAtMeeting(g, e, before, ids, ok, x, i);
    SlotsFollow(g, now, i, |Src(g, i)|, x, g.nodes[i]);
    assert Src(g, i)[..|Src(g, i)|] == Src(g, i);
  }

  /** a view without an id to that of its root; */
  lemma ViewFollowsRoot(g: OpGraph, e: Backends, before: seq<int>, ids: seq<int>, ok: bool, x: nat, i: nat)
    requires Ordered(g) && IdsOk(g, e, before) && RestOutcome(g, e, before, ids, ok) && ok
    requires x < |before| && before[x] == UNASSIGNED && g.tensors[x].viewSrc.Some? && FirstMet(g, x, i)
    requires before[g.tensors[x].viewSrc.value] != UNASSIGNED
    ensures |ids| == |before| && ids[x] == before[g.tensors[x].viewSrc.value]
  {
    var now := IdsAtMeeting(g, e, before, ids, ok, x, i);
    if g.nodes[i] == x { RestAtFills(g, e, now, i); } else { ViewReadFollowsRoot(g, e, now, i, x); }
  }

  lemma FallsBackAt(g: OpGraph, e: Backends, ids: seq<int>, i: nat, b: nat)
    requires IdsOk(g, e, ids) && i < |g.nodes| && g.nodes[i] !in Src(g, i)
    requires ids[g.nodes[i]] == UNASSIGNED && ids[Root(g, g.nodes[i])] == UNASSIGNED
    requires b < |e.bufts| && e.supportsOp(b, g.nodes[i]) && forall c: nat :: c < b ==> !e.supportsOp(c, g.nodes[i])
    ensures RestAt(g, e, ids, i)[g.nodes[i]] == b
  {
    assert AfterView(g, ids, i) == ids;
    SlotsFill(g, e, ids, i, |Src(g, i)|);
  }

  /** and a node that nothing met before, with neither an id nor a root that has one, to the first backend that
      supports it. */
  lemma FallsBack(g: OpGraph, e: Backends, before: seq<int>, ids: seq<int>, ok: bool, i: nat, b: nat)
    requires Ordered(g) && IdsOk(g, e, before) && RestOutcome(g, e, before, ids, ok) && ok
    requires i < |g.nodes| && FirstMet(g, g.nodes[i], i) && NotMet(g, Root(g, g.nodes[i]), i)
    requires before[g.nodes[i]] == UNASSIGNED && before[Root(g, g.nodes[i])] == UNASSIGNED
    requires b < |e.bufts| && e.supportsOp(b, g.nodes[i]) && forall c: nat :: c < b ==> !e.supportsOp(c, g.nodes[i])
    ensures |ids| == |before| && ids[g.nodes[i]] == b
  {
    var now := IdsAtMeeting(g, e, before, ids, ok, g.nodes[i], i);
    FallsBackAt(g, e, now, i, b);
  }
}
