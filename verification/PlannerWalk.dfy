/** The invariant of the planner's walk over the nodes, and the two steps that keep it. */
module PlannerWalk {
  import opened Wrappers
  import opened DynTallocrs
  import opened Graphs
  import opened Executions
  import opened PlannerSpec

  /** `placed` nodes have been placed and the next slot to pass is slot `j` of node `i`. */
  ghost predicate Walk(g: Graph, al: Buffers, s: PState, placed: nat, i: nat, j: nat, reused: Option<nat>) {
    && Mem(g, al, s)
    && Book(g, s.hn, i, j)
    && Held(g, s.hn, placed, i, j, reused)
    && InBounds(g, al, s, placed)
    && HarmlessSoFar(g, PlanOf(s.hn), placed)
    && InitialApart(g, PlanOf(s.hn))
    && ReusedOk(g, i, reused)
  }

  ghost predicate AllSound(s: PState) {
    forall b :: 0 <= b < |s.views| ==> SoundViews(s.views[b])
  }

  // ---- placing a node

  /** A source is already placed when its reader is reached, so the planner passes over it. */
  lemma SourceIsSkipped(g: Graph, al: Buffers, s: PState, i: nat, j: nat)
    requires WellFormed(g) && i < |g.nodes| && j < |Src(g, i)| && Walk(g, al, s, i, i, 0, None)
    ensures Skipped(g, s.hn, Src(g, i)[j])
  {
    var p := Src(g, i)[j];
    assert NodeWellFormed(g, i) && SourceWellFormed(g, p, i);
    if Owned(g, p) {
      assert Uses(g, i, p);
      UseIsNotGone(g, p, i, i);
      assert ShouldHold(g, p, i, i, 0);
    }
  }

  /** The source a node takes over is read by nobody else. */
  lemma TakenOverIsGone(g: Graph, s: PState, i: nat, p: nat)
    requires WellFormed(g) && i < |g.nodes| && Book(g, s.hn, i, 0) && p in Src(g, i)
    requires Owned(g, p) && Reusable(g, s.hn, g.nodes[i], p)
    ensures ReusedOk(g, i, Some(p))
  {
    var j :| 0 <= j < |Src(g, i)| && Src(g, i)[j] == p;
    assert Left(g, p, i, 0) == 1;
    LeftPositive(g, p, 0, 0, i, j);
    LeftPositive(g, p, i, 0, i, j);
    LastSlot(g, p, i, j);
    OpenShrinks(g, p, |g.nodes|, i, 0, i + 1, 0);
  }

  lemma {:induction false} LastSlot(g: Graph, p: nat, i: nat, j: nat)
    requires i < |g.nodes| && j < |Src(g, i)| && Src(g, i)[j] == p && Left(g, p, i, 0) == 1
    ensures Left(g, p, i + 1, 0) == 0
  {
    LeftShrinks(g, p, i, 0, i, j);
    LeftAdvance(g, p, i, j);
    LeftShrinks(g, p, i, j + 1, i + 1, 0);
  }

  function ReusedBy(g: Graph, s: PState, t: nat): Option<nat>
    requires t < |g.tensors| == |s.hn|
  {
    if Skipped(g, s.hn, t) then None else InplaceParent(g, s.hn, t)
  }

  /** A node that is not passed over gets its first and only place. */
  lemma PlacedOnce(g: Graph, al: Buffers, s: PState, i: nat)
    requires WellFormed(g) && i < |g.nodes| && Walk(g, al, s, i, i, 0, None)
    ensures !Skipped(g, s.hn, g.nodes[i]) <==> Owned(g, g.nodes[i]) && !Placed(g, g.nodes[i], i)
  {
    var t := g.nodes[i];
    if Owned(g, t) {
      NotGoneWhenPlaced(g, t, i);
      assert s.hn[t].held <==> ShouldHold(g, t, i, i, 0);
    }
  }

  lemma PlacedNext(g: Graph, i: nat, t: nat)
    requires i < |g.nodes|
    ensures Placed(g, t, i + 1) <==> Placed(g, t, i) || (Owned(g, t) && t == g.nodes[i])
  {
    if NodeBefore(g, t, i) { assert NodeBefore(g, t, i + 1); }
    if t == g.nodes[i] { assert NodeBefore(g, t, i + 1); }
  }

  lemma HeldAfterPlacing(g: Graph, al: Buffers, s: PState, s': PState, i: nat, b: nat)
    requires WellFormed(g) && i < |g.nodes| && Walk(g, al, s, i, i, 0, None)
    requires AllocateRel(g, al, s, s', g.nodes[i], b)
    ensures Held(g, s'.hn, i + 1, i, 0, ReusedBy(g, s, g.nodes[i]))
    ensures ReusedOk(g, i, ReusedBy(g, s, g.nodes[i]))
  {
    var t, r := g.nodes[i], ReusedBy(g, s, g.nodes[i]);
    PlacedOnce(g, al, s, i);
    if r.Some? {
      assert Holds(g, al, s, r.value);
      TakenOverIsGone(g, s, i, r.value);
    }
    if Owned(g, t) { NotGoneWhenPlaced(g, t, i); }
    forall u | 0 <= u < |s'.hn| ensures s'.hn[u].held <==> ShouldHold(g, u, i + 1, i, 0) && r != Some(u) {
      PlacedNext(g, i, u);
      assert s.hn[u].held <==> ShouldHold(g, u, i, i, 0);
    }
  }

  /** Addresses of placed tensors never change, and high-water marks only rise. */
  ghost predicate Steady(g: Graph, s: PState, s': PState, placed: nat) {
    && |s'.hn| == |s.hn| == |g.tensors| && |s'.views| == |s.views|
    && (forall b :: 0 <= b < |s.views| ==> Higher(s.views[b], s'.views[b]))
    && (forall t :: 0 <= t < |s.hn| && Placed(g, t, placed) ==> PlaceOf(s'.hn[t]) == PlaceOf(s.hn[t]))
  }

  lemma AllocateIsSteady(g: Graph, al: Buffers, s: PState, s': PState, i: nat, b: nat)
    requires WellFormed(g) && i < |g.nodes| && Walk(g, al, s, i, i, 0, None)
    requires AllocateRel(g, al, s, s', g.nodes[i], b)
    ensures Steady(g, s, s', i)
  {
    PlacedOnce(g, al, s, i);
    AllocateRaises(g, al, s, s', g.nodes[i], b);
  }

  lemma SteadyKeepsBounds(g: Graph, al: Buffers, s: PState, s': PState, placed: nat)
    requires InBounds(g, al, s, placed) && Steady(g, s, s', placed)
    ensures InBounds(g, al, s', placed)
  {
    forall t | 0 <= t < |s'.hn| && Placed(g, t, placed) ensures TensorInBounds(g, al, s', t) {
      assert TensorInBounds(g, al, s, t);
      assert PlaceOf(s'.hn[t]) == PlaceOf(s.hn[t]);
      assert Higher(s.views[s.hn[t].bufferId], s'.views[s.hn[t].bufferId]);
    }
  }

  /** A tensor that holds its region is in bounds if its address is aligned. */
  lemma HolderInBounds(g: Graph, al: Buffers, s: PState, t: nat)
    requires Mem(g, al, s) && t < |s.hn| && s.hn[t].held
    requires s.hn[t].bufferId < |al| ==> Multiple(s.hn[t].addr.offset, al[s.hn[t].bufferId].alignment)
    ensures TensorInBounds(g, al, s, t)
  {
    var h := s.hn[t];
    assert Holds(g, al, s, t) && SoundViews(s.views[h.bufferId]);
    AlignUpIsLeast(Size(g, t, h.bufferId), al[h.bufferId].alignment);
    assert IsLive(s.views[h.bufferId], h.addr, Reserved(g, al, t, h.bufferId));
  }

  lemma NewPlaceInBounds(g: Graph, al: Buffers, s: PState, s': PState, i: nat, b: nat)
    requires WellFormed(g) && i < |g.nodes| && Walk(g, al, s, i, i, 0, None) && Mem(g, al, s')
    requires AllocateRel(g, al, s, s', g.nodes[i], b) && Owned(g, g.nodes[i])
    ensures TensorInBounds(g, al, s', g.nodes[i])
  {
    var t := g.nodes[i];
    PlacedOnce(g, al, s, i);
    if Skipped(g, s.hn, t) {
      assert TensorInBounds(g, al, s, t);
    } else {
      match InplaceParent(g, s.hn, t)
      case Some(p) =>
        assert ShouldHold(g, p, i, i, 0);
        assert TensorInBounds(g, al, s, p);
        HolderInBounds(g, al, s', t);
      case None =>
        HolderInBounds(g, al, s', t);
    }
  }

  lemma BookIgnoresPlaces(g: Graph, hn: seq<HashNode>, hn': seq<HashNode>, i: nat, j: nat)
    requires Book(g, hn, i, j) && |hn'| == |hn|
    requires forall t :: 0 <= t < |hn| ==> hn'[t].nChildren == hn[t].nChildren && hn'[t].nViews == hn[t].nViews
    ensures Book(g, hn', i, j)
  {
  }

  lemma BoundsAfterPlacing(g: Graph, al: Buffers, s: PState, s': PState, i: nat, b: nat)
    requires WellFormed(g) && i < |g.nodes| && Walk(g, al, s, i, i, 0, None) && Mem(g, al, s')
    requires AllocateRel(g, al, s, s', g.nodes[i], b)
    ensures InBounds(g, al, s', i + 1)
  {
    AllocateIsSteady(g, al, s, s', i, b);
    SteadyKeepsBounds(g, al, s, s', i);
    forall u | 0 <= u < |s'.hn| && Placed(g, u, i + 1) ensures TensorInBounds(g, al, s', u) {
      PlacedNext(g, i, u);
      if !Placed(g, u, i) { NewPlaceInBounds(g, al, s, s', i, b); }
    }
  }

  /** A node that takes over a source reads it through no view, works in place, and is laid out alike. */
  lemma TakesOverInPlace(g: Graph, al: Buffers, s: PState, s': PState, i: nat, b: nat)
    requires WellFormed(g) && i < |g.nodes| && Walk(g, al, s, i, i, 0, None)
    requires AllocateRel(g, al, s, s', g.nodes[i], b)
    ensures |s'.hn| == |g.tensors| && TakenOver(g, PlanOf(s'.hn), i, ReusedBy(g, s, g.nodes[i]))
  {
    var t, r := g.nodes[i], ReusedBy(g, s, g.nodes[i]);
    if r.Some? {
      var p := r.value;
      forall j | 0 <= j < |Src(g, i)| && Root(g, Src(g, i)[j]) == p ensures InPlace(g, PlanOf(s'.hn), t, Src(g, i)[j]) {
        assert Holds(g, al, s, p);
        var v := Src(g, i)[j];
        if IsView(g, v) {
          assert NodeWellFormed(g, i) && SourceWellFormed(g, v, i);
          var m :| 0 <= m < i && m < |g.nodes| && g.nodes[m] == v;
          LeftPositive(g, v, i, 0, i, j);
          OpenPositive(g, p, m, |g.nodes|, i, 0);
        }
      }
    }
  }

  lemma HarmlessAfterPlacing(g: Graph, al: Buffers, s: PState, s': PState, i: nat, b: nat)
    requires WellFormed(g) && i < |g.nodes| && Walk(g, al, s, i, i, 0, None) && Mem(g, al, s')
    requires AllocateRel(g, al, s, s', g.nodes[i], b)
    ensures HarmlessSoFar(g, PlanOf(s'.hn), i + 1) && InitialApart(g, PlanOf(s'.hn))
  {
    AllocateIsSteady(g, al, s, s', i, b);
    SteadyKeepsHarmless(g, s, s', i);
    HeldAfterPlacing(g, al, s, s', i, b);
    TakesOverInPlace(g, al, s, s', i, b);
    if Writes(g, i) { PlacementHarmless(g, al, s', i, ReusedBy(g, s, g.nodes[i])); }
    OneMoreHarmless(g, PlanOf(s'.hn), i);
  }

  lemma OneMoreHarmless(g: Graph, plan: Plan, i: nat)
    requires i < |g.nodes| && HarmlessSoFar(g, plan, i) && (Writes(g, i) ==> NodeHarmless(g, plan, i))
    ensures HarmlessSoFar(g, plan, i + 1)
  {
  }

  lemma SteadyKeepsHarmless(g: Graph, s: PState, s': PState, placed: nat)
    requires WellFormed(g) && placed <= |g.nodes| && |s.hn| == |g.tensors| && Steady(g, s, s', placed)
    requires HarmlessSoFar(g, PlanOf(s.hn), placed) && InitialApart(g, PlanOf(s.hn))
    ensures HarmlessSoFar(g, PlanOf(s'.hn), placed) && InitialApart(g, PlanOf(s'.hn))
  {
    HarmlessDependsOnPlaced(g, PlanOf(s.hn), PlanOf(s'.hn), placed);
    forall t | 0 <= t < |s.hn| && Placed(g, t, 0)
      ensures PlaceOf(s'.hn[t]) == PlaceOf(s.hn[t])
    {
      PlacedGrows(g, t, 0, placed);
    }
    var plan, plan' := PlanOf(s.hn), PlanOf(s'.hn);
    forall r: nat, w: nat | Placed(g, r, 0) && Placed(g, w, 0) && r != w ensures TensorsApart(g, plan', r, w) {
      assert TensorsApart(g, plan, r, w);
    }
  }

  lemma PlaceStep(g: Graph, al: Buffers, s: PState, s': PState, i: nat, b: nat)
    requires WellFormed(g) && i < |g.nodes| && Walk(g, al, s, i, i, 0, None) && b < |al| && SizesOk(g, al)
    requires AllocateRel(g, al, s, s', g.nodes[i], b) && AllSound(s')
    ensures Walk(g, al, s', i + 1, i, 0, ReusedBy(g, s, g.nodes[i]))
  {
    AllocateKeepsMem(g, al, s, s', g.nodes[i], b);
    BookIgnoresPlaces(g, s.hn, s'.hn, i, 0);
    HeldAfterPlacing(g, al, s, s', i, b);
    BoundsAfterPlacing(g, al, s, s', i, b);
    HarmlessAfterPlacing(g, al, s, s', i, b);
  }

  // ---- passing a source slot

  /** The counters after one use of `p` is crossed off. */
  function CrossOff(g: Graph, hn: seq<HashNode>, p: nat): (r: seq<HashNode>)
    requires p < |g.tensors| == |hn|
    ensures |r| == |hn|
  {
    var h := hn[p := hn[p].(nChildren := hn[p].nChildren - 1)];
    if h[p].nChildren == 0 && h[p].nViews == 0 && IsView(g, p)
    then h[Root(g, p) := h[Root(g, p)].(nViews := h[Root(g, p)].nViews - 1)]
    else h
  }

  /** The tensor that is released after a use of `p` was crossed off. */
  function ToFree(g: Graph, hn: seq<HashNode>, p: nat): (r: Option<nat>)
    requires p < |g.tensors| == |hn|
    ensures r.Some? ==> r.value == Root(g, p) && hn[r.value].held
  {
    var r := Root(g, p);
    if hn[p].nChildren == 0 && hn[p].nViews == 0 && hn[r].held && hn[r].nViews == 0 && hn[r].nChildren == 0
    then Some(r) else None
  }

  ghost predicate SlotRel(g: Graph, al: Buffers, s: PState, s': PState, p: nat)
    requires p < |g.tensors| == |s.hn|
  {
    var mid := PState(CrossOff(g, s.hn, p), s.views);
    match ToFree(g, mid.hn, p)
    case Some(t) => FreeRel(g, al, mid, s', t)
    case None => s' == mid
  }

  /** The release that follows crossing off a use of `p` cannot be recorded. */
  ghost predicate SlotAborts(g: Graph, al: Buffers, s: PState, p: nat)
    requires p < |g.tensors| == |s.hn|
  {
    var mid := PState(CrossOff(g, s.hn, p), s.views);
    var r := ToFree(g, mid.hn, p);
    r.Some? && s.hn[r.value].bufferId < |s.views| == |al| && FreeAborts(g, al, mid, r.value)
  }

  lemma CrossingKeepsMem(g: Graph, al: Buffers, s: PState, s': PState)
    requires Mem(g, al, s) && s'.views == s.views && |s'.hn| == |s.hn|
    requires forall t :: 0 <= t < |s.hn| ==> s'.hn[t].held == s.hn[t].held && PlaceOf(s'.hn[t]) == PlaceOf(s.hn[t])
    ensures Mem(g, al, s')
  {
    forall t | 0 <= t < |s'.hn| && s'.hn[t].held ensures Holds(g, al, s', t) { assert Holds(g, al, s, t); }
  }

  lemma CountersStep(g: Graph, hn: seq<HashNode>, i: nat, j: nat)
    requires WellFormed(g) && i < |g.nodes| && j < |Src(g, i)| && Book(g, hn, i, j)
    ensures Book(g, CrossOff(g, hn, Src(g, i)[j]), i, j + 1)
  {
    var p := Src(g, i)[j];
    var h := CrossOff(g, hn, p);
    assert NodeWellFormed(g, i) && SourceWellFormed(g, p, i);
    LeftAdvance(g, p, i, j);
    forall t | 0 <= t < |h| ensures h[t].nChildren == Left(g, t, i, j + 1) { LeftAdvance(g, t, i, j); }
    forall t | 0 <= t < |h| && Owned(g, t) ensures h[t].nViews == Open(g, t, i, j + 1) {
      OpenAdvance(g, t, |g.nodes|, i, j);
      assert g.nodes[..|g.nodes|] == g.nodes;
    }
  }

  lemma FreedIsGone(g: Graph, hn: seq<HashNode>, i: nat, j: nat)
    requires WellFormed(g) && i < |g.nodes| && j < |Src(g, i)| && Book(g, hn, i, j + 1)
    requires ToFree(g, hn, Src(g, i)[j]).Some? && Owned(g, Root(g, Src(g, i)[j]))
    ensures Gone(g, Root(g, Src(g, i)[j]), i, j + 1)
  {
    var p, t := Src(g, i)[j], Root(g, Src(g, i)[j]);
    LeftPositive(g, p, 0, 0, i, j);
    assert NodeWellFormed(g, i) && SourceWellFormed(g, p, i);
    if IsView(g, p) {
      var m :| 0 <= m < i && m < |g.nodes| && g.nodes[m] == p;
      OpenPositive(g, t, m, |g.nodes|, 0, 0);
      AllOpenAtStart(g, t, |g.nodes|);
    }
  }

  /** A tensor that becomes gone with this slot is the one that is released. */
  lemma NewlyGoneIsFreed(g: Graph, hn: seq<HashNode>, i: nat, j: nat, t: nat)
    requires WellFormed(g) && i < |g.nodes| && j < |Src(g, i)| && Book(g, hn, i, j + 1)
    requires Owned(g, t) && !Gone(g, t, i, j) && Gone(g, t, i, j + 1) && hn[t].held
    ensures ToFree(g, hn, Src(g, i)[j]) == Some(t)
  {
    var p := Src(g, i)[j];
    LeftAdvance(g, t, i, j);
    LeftAdvance(g, p, i, j);
    OpenAdvance(g, t, |g.nodes|, i, j);
  }

  lemma HeldStep(g: Graph, al: Buffers, s: PState, s': PState, i: nat, j: nat, reused: Option<nat>)
    requires WellFormed(g) && i < |g.nodes| && j < |Src(g, i)| && Walk(g, al, s, i + 1, i, j, reused)
    requires SlotRel(g, al, s, s', Src(g, i)[j])
    ensures Held(g, s'.hn, i + 1, i, j + 1, reused)
  {
    var p := Src(g, i)[j];
    var hn := CrossOff(g, s.hn, p);
    CountersStep(g, s.hn, i, j);
    forall t | 0 <= t < |s'.hn| ensures s'.hn[t].held <==> ShouldHold(g, t, i + 1, i, j + 1) && reused != Some(t) {
      assert s.hn[t].held <==> ShouldHold(g, t, i + 1, i, j) && reused != Some(t);
      assert hn[t].held == s.hn[t].held;
      GoneStaysGone(g, t, i, j, i, j + 1);
      if ToFree(g, hn, p) == Some(t) {
        assert Holds(g, al, s, t);
        FreedIsGone(g, hn, i, j);
      } else if s.hn[t].held && Gone(g, t, i, j + 1) && !Gone(g, t, i, j) {
        assert Holds(g, al, s, t);
        NewlyGoneIsFreed(g, hn, i, j, t);
      }
    }
  }

  lemma SlotIsSteady(g: Graph, al: Buffers, s: PState, s': PState, p: nat, placed: nat)
    requires p < |g.tensors| == |s.hn| && |s.views| == |al| && SlotRel(g, al, s, s', p)
    ensures Steady(g, s, s', placed)
  {
    SlotRaises(g, al, s, s', p);
  }

  lemma SlotRaises(g: Graph, al: Buffers, s: PState, s': PState, p: nat)
    requires p < |g.tensors| == |s.hn| && |s.views| == |al| && SlotRel(g, al, s, s', p)
    ensures |s'.views| == |s.views| && forall c :: 0 <= c < |s.views| ==> Higher(s.views[c], s'.views[c])
  {
    var mid := PState(CrossOff(g, s.hn, p), s.views);
    var r := ToFree(g, mid.hn, p);
    if r.Some? && !g.tensors[r.value].output {
      var b := mid.hn[r.value].bufferId;
      GivenBackIsSteady(s.views[b], s'.views[b], mid.hn[r.value].addr, 0, Reserved(g, al, r.value, b));
    }
  }

  lemma SlotStep(g: Graph, al: Buffers, s: PState, s': PState, i: nat, j: nat, reused: Option<nat>)
    requires WellFormed(g) && i < |g.nodes| && j < |Src(g, i)| && Walk(g, al, s, i + 1, i, j, reused)
    requires SlotRel(g, al, s, s', Src(g, i)[j]) && Mem(g, al, s')
    ensures Walk(g, al, s', i + 1, i, j + 1, reused)
  {
    var p := Src(g, i)[j];
    CountersStep(g, s.hn, i, j);
    BookIgnoresPlaces(g, CrossOff(g, s.hn, p), s'.hn, i, j + 1);
    HeldStep(g, al, s, s', i, j, reused);
    SlotIsSteady(g, al, s, s', p, i + 1);
    SteadyKeepsBounds(g, al, s, s', i + 1);
    SteadyKeepsHarmless(g, s, s', i + 1);
  }

  lemma NodeDone(g: Graph, al: Buffers, s: PState, i: nat, reused: Option<nat>)
    requires WellFormed(g) && i < |g.nodes| && Walk(g, al, s, i + 1, i, |Src(g, i)|, reused)
    ensures Walk(g, al, s, i + 1, i + 1, 0, None)
  {
    forall t: nat | t < |s.hn|
      ensures Left(g, t, i, |Src(g, i)|) == Left(g, t, i + 1, 0)
      ensures Open(g, t, i, |Src(g, i)|) == Open(g, t, i + 1, 0)
    {
      NextNode(g, t, |g.nodes|, i);
    }
    forall t | 0 <= t < |s.hn| ensures s.hn[t].held <==> ShouldHold(g, t, i + 1, i + 1, 0) {
      assert s.hn[t].held <==> ShouldHold(g, t, i + 1, i, |Src(g, i)|) && reused != Some(t);
    }
  }

  // ---- before the walk: leafs, inputs, and the counters

  /** `leafs` leafs and `nodes` nodes have been looked at, and the slots before slot `j` of node `i`
      have been counted. */
  ghost predicate Prepared(g: Graph, al: Buffers, s: PState, leafs: nat, nodes: nat, i: nat, j: nat) {
    && leafs <= |g.leafs| && nodes <= |g.nodes|
    && Mem(g, al, s)
    && BookSoFar(g, s.hn, nodes, i, j)
    && (forall t :: 0 <= t < |s.hn| ==> (s.hn[t].held <==> Owned(g, t) && SeenInitial(g, t, leafs, nodes, i, j)))
    && (forall t :: 0 <= t < |s.hn| && s.hn[t].held ==> TensorInBounds(g, al, s, t))
  }

  /** What has been counted of each tensor. */
  ghost predicate BookSoFar(g: Graph, hn: seq<HashNode>, nodes: nat, i: nat, j: nat) {
    && nodes <= |g.nodes| && |hn| == |g.tensors|
    && (forall t :: 0 <= t < |hn| ==> hn[t].nChildren == Slots(g, t) - Left(g, t, i, j))
    && (forall t :: 0 <= t < |hn| && Owned(g, t) ==> hn[t].nViews == ViewsBelow(g, t, nodes))
    && (forall t :: 0 <= t < |hn| && IsView(g, t) ==> hn[t].nViews == 0)
  }

  ghost predicate SeenInitial(g: Graph, t: nat, leafs: nat, nodes: nat, i: nat, j: nat)
    requires t < |g.tensors| && leafs <= |g.leafs|
  {
    t in g.leafs[..leafs] || (g.tensors[t].input && (NodeBefore(g, t, nodes) || Left(g, t, i, j) < Slots(g, t)))
  }

  /** Placing a tensor without operation adds it to the held ones and changes nothing else. */
  lemma AllocateInitial(g: Graph, al: Buffers, s: PState, s': PState, t: nat, b: nat)
    requires WellFormed(g) && t < |g.tensors| && g.tensors[t].isNone && b < |al| && SizesOk(g, al)
    requires Mem(g, al, s) && AllocateRel(g, al, s, s', t, b) && AllSound(s')
    requires forall u :: 0 <= u < |s.hn| && s.hn[u].held ==> TensorInBounds(g, al, s, u)
    ensures Mem(g, al, s')
    ensures forall u ::
        0 <= u < |s'.hn| ==> s'.hn[u].nChildren == s.hn[u].nChildren && s'.hn[u].nViews == s.hn[u].nViews
    ensures forall u :: 0 <= u < |s'.hn| ==> (s'.hn[u].held <==> s.hn[u].held || (u == t && Owned(g, t)))
    ensures forall u :: 0 <= u < |s'.hn| && s'.hn[u].held ==> TensorInBounds(g, al, s', u)
  {
    AllocateKeepsMem(g, al, s, s', t, b);
    if !Skipped(g, s.hn, t) {
      forall u | 0 <= u < |s'.hn| && s'.hn[u].held ensures TensorInBounds(g, al, s', u) {
        if u == t { HolderInBounds(g, al, s', t); }
        else {
          AllocateRaises(g, al, s, s', t, b);
          assert TensorInBounds(g, al, s, u);
          assert Higher(s.views[s.hn[u].bufferId], s'.views[s.hn[u].bufferId]);
        }
      }
    }
  }

  lemma OneMoreLeaf(g: Graph, i: nat)
    requires i < |g.leafs|
    ensures forall u ::
        0 <= u < |g.tensors| ==>
        (SeenInitial(g, u, i + 1, 0, 0, 0) <==> SeenInitial(g, u, i, 0, 0, 0) || u == g.leafs[i])
  {
    assert g.leafs[..i + 1] == g.leafs[..i] + [g.leafs[i]];
    forall u | 0 <= u < |g.tensors|
      ensures SeenInitial(g, u, i + 1, 0, 0, 0) <==> SeenInitial(g, u, i, 0, 0, 0) || u == g.leafs[i]
    {
      assert u in g.leafs[..i + 1] <==> u in g.leafs[..i] || u == g.leafs[i];
    }
  }

  lemma BlankIsPrepared(g: Graph, al: Buffers, s: PState)
    requires |s.hn| == |g.tensors| && |s.views| == |al| && AllSound(s)
    requires forall t :: 0 <= t < |s.hn| ==> s.hn[t] == BLANK
    ensures Prepared(g, al, s, 0, 0, 0, 0)
  {
    assert Mem(g, al, s);
    forall t | 0 <= t < |s.hn| ensures !SeenInitial(g, t, 0, 0, 0, 0) && !s.hn[t].held && s.hn[t].nViews == 0 {
      assert s.hn[t] == BLANK && g.leafs[..0] == [];
    }
    forall t | 0 <= t < |s.hn| ensures s.hn[t].nChildren == Slots(g, t) - Left(g, t, 0, 0) { assert s.hn[t] == BLANK; }
  }

  /** The invariant is kept when `t` joins the initial tensors seen so far. */
  lemma PreparedAllocate(g: Graph, al: Buffers, s: PState, s': PState, t: nat, b: nat,
                         leafs: nat, leafs': nat, nodes: nat, i: nat, j: nat)
    requires WellFormed(g) && t < |g.tensors| && g.tensors[t].isNone && b < |al| && SizesOk(g, al)
    requires Prepared(g, al, s, leafs, nodes, i, j) && AllocateRel(g, al, s, s', t, b) && AllSound(s')
    requires leafs' <= |g.leafs|
    requires forall u :: 0 <= u < |g.tensors| ==>
               (SeenInitial(g, u, leafs', nodes, i, j) <==> SeenInitial(g, u, leafs, nodes, i, j) || u == t)
    ensures Prepared(g, al, s', leafs', nodes, i, j)
  {
    AllocateInitial(g, al, s, s', t, b);
  }

  /** The views counted when node `i` is looked at. */
  function CountView(g: Graph, hn: seq<HashNode>, t: nat): (r: seq<HashNode>)
    requires t < |g.tensors| == |hn|
    ensures |r| == |hn|
  {
    if IsView(g, t) && !g.tensors[t].isNone
    then hn[Root(g, t) := hn[Root(g, t)].(nViews := hn[Root(g, t)].nViews + 1)]
    else hn
  }

  function CountSlot(g: Graph, hn: seq<HashNode>, p: nat): (r: seq<HashNode>)
    requires p < |hn|
    ensures |r| == |hn|
  {
    hn[p := hn[p].(nChildren := hn[p].nChildren + 1)]
  }

  /** `t` is offered a place if it is an input. */
  ghost predicate OfferInput(g: Graph, al: Buffers, s: PState, s': PState, t: nat, b: nat)
    requires t < |g.tensors| == |s.hn|
  {
    if g.tensors[t].input then AllocateRel(g, al, s, s', t, b) else s' == s
  }

  lemma OfferKeeps(g: Graph, al: Buffers, s: PState, s': PState, t: nat, b: nat)
    requires WellFormed(g) && t < |g.tensors| && b < |al| && SizesOk(g, al)
    requires Mem(g, al, s) && OfferInput(g, al, s, s', t, b) && AllSound(s')
    requires forall u :: 0 <= u < |s.hn| && s.hn[u].held ==> TensorInBounds(g, al, s, u)
    ensures Mem(g, al, s')
    ensures forall u ::
        0 <= u < |s'.hn| ==> s'.hn[u].nChildren == s.hn[u].nChildren && s'.hn[u].nViews == s.hn[u].nViews
    ensures forall u ::
        0 <= u < |s'.hn| ==> (s'.hn[u].held <==> s.hn[u].held || (u == t && Owned(g, t) && g.tensors[t].input))
    ensures forall u :: 0 <= u < |s'.hn| && s'.hn[u].held ==> TensorInBounds(g, al, s', u)
  {
    if g.tensors[t].input { AllocateInitial(g, al, s, s', t, b); }
  }

  /** Counting does not disturb the memory. */
  lemma CountingKeepsMem(g: Graph, al: Buffers, s: PState, s': PState)
    requires Mem(g, al, s) && s'.views == s.views && |s'.hn| == |s.hn|
    requires forall t :: 0 <= t < |s.hn| ==> s'.hn[t].held == s.hn[t].held && PlaceOf(s'.hn[t]) == PlaceOf(s.hn[t])
    requires forall u :: 0 <= u < |s.hn| && s.hn[u].held ==> TensorInBounds(g, al, s, u)
    ensures Mem(g, al, s')
    ensures forall u :: 0 <= u < |s'.hn| && s'.hn[u].held ==> TensorInBounds(g, al, s', u)
  {
    CrossingKeepsMem(g, al, s, s');
    forall u | 0 <= u < |s'.hn| && s'.hn[u].held
      ensures TensorInBounds(g, al, s', u)
    {
      assert TensorInBounds(g, al, s, u);
    }
  }

  lemma PreparedNode(g: Graph, al: Buffers, s: PState, s': PState, i: nat, b: nat)
    requires WellFormed(g) && i < |g.nodes| && b < |al| && SizesOk(g, al)
    requires Prepared(g, al, s, |g.leafs|, i, i, 0)
    requires OfferInput(g, al, PState(CountView(g, s.hn, g.nodes[i]), s.views), s', g.nodes[i], b) && AllSound(s')
    ensures Prepared(g, al, s', |g.leafs|, i + 1, i, 0)
  {
    var t := g.nodes[i];
    var mid := PState(CountView(g, s.hn, t), s.views);
    CountingKeepsMem(g, al, s, mid);
    OfferKeeps(g, al, mid, s', t, b);
    forall u | 0 <= u < |s'.hn|
      ensures s'.hn[u].held <==> Owned(g, u) && SeenInitial(g, u, |g.leafs|, i + 1, i, 0)
      ensures Owned(g, u) ==> s'.hn[u].nViews == ViewsBelow(g, u, i + 1)
      ensures IsView(g, u) ==> s'.hn[u].nViews == 0
    {
      if NodeBefore(g, u, i) { assert NodeBefore(g, u, i + 1); }
      if u == t { assert NodeBefore(g, u, i + 1); }
      assert s.hn[u].held <==> Owned(g, u) && SeenInitial(g, u, |g.leafs|, i, i, 0);
    }
  }

  lemma PreparedSlot(g: Graph, al: Buffers, s: PState, s': PState, i: nat, j: nat, b: nat)
    requires WellFormed(g) && i < |g.nodes| && j < |Src(g, i)| && b < |al| && SizesOk(g, al)
    requires Prepared(g, al, s, |g.leafs|, i + 1, i, j)
    requires OfferInput(g, al, PState(CountSlot(g, s.hn, Src(g, i)[j]), s.views), s', Src(g, i)[j], b) && AllSound(s')
    ensures Prepared(g, al, s', |g.leafs|, i + 1, i, j + 1)
  {
    var p := Src(g, i)[j];
    var mid := PState(CountSlot(g, s.hn, p), s.views);
    CountingKeepsMem(g, al, s, mid);
    OfferKeeps(g, al, mid, s', p, b);
    forall u | 0 <= u < |s'.hn|
      ensures s'.hn[u].nChildren == Slots(g, u) - Left(g, u, i, j + 1)
      ensures s'.hn[u].held <==> Owned(g, u) && SeenInitial(g, u, |g.leafs|, i + 1, i, j + 1)
    {
      LeftAdvance(g, u, i, j);
      LeftShrinks(g, u, 0, 0, i, j);
      assert s.hn[u].held <==> Owned(g, u) && SeenInitial(g, u, |g.leafs|, i + 1, i, j);
    }
  }

  lemma PreparedNext(g: Graph, al: Buffers, s: PState, i: nat)
    requires i < |g.nodes| && Prepared(g, al, s, |g.leafs|, i + 1, i, |Src(g, i)|)
    ensures Prepared(g, al, s, |g.leafs|, i + 1, i + 1, 0)
  {
    assert forall t: nat :: Left(g, t, i, |Src(g, i)|) == Left(g, t, i + 1, 0);
  }

  lemma {:induction false} NothingLeft(g: Graph, t: nat, i: nat)
    requires i >= |g.nodes|
    ensures Left(g, t, i, 0) == 0
  {
  }

  /** The preparation sets up the walk. */
  lemma PreparedStartsWalk(g: Graph, al: Buffers, s: PState)
    requires WellFormed(g) && Prepared(g, al, s, |g.leafs|, |g.nodes|, |g.nodes|, 0)
    ensures Walk(g, al, s, 0, 0, 0, None)
  {
    assert g.leafs[..|g.leafs|] == g.leafs;
    forall t | 0 <= t < |s.hn|
      ensures s.hn[t].nChildren == Left(g, t, 0, 0)
      ensures Owned(g, t) ==> s.hn[t].nViews == Open(g, t, 0, 0)
      ensures s.hn[t].held <==> Placed(g, t, 0)
      ensures !Gone(g, t, 0, 0)
    {
      NothingLeft(g, t, |g.nodes|);
      AllOpenAtStart(g, t, |g.nodes|);
      assert NodeBefore(g, t, |g.nodes|) <==> t in g.nodes;
    }
    forall r: nat, w: nat | Placed(g, r, 0) && Placed(g, w, 0) && r != w ensures TensorsApart(g, PlanOf(s.hn), r, w) {
      AllocatedApart(g, al, s, r, w);
    }
  }

  /** What the finished walk guarantees. */
  lemma WalkIsDone(g: Graph, al: Buffers, s: PState)
    requires WellFormed(g) && Walk(g, al, s, |g.nodes|, |g.nodes|, 0, None)
    ensures NonInterfering(g, PlanOf(s.hn)) && RunsLikePrivate(g, PlanOf(s.hn))
    ensures forall t :: 0 <= t < |g.tensors| ==> (s.hn[t].held <==> Placed(g, t, |g.nodes|) && Persistent(g, t))
  {
    forall t | 0 <= t < |g.tensors| ensures s.hn[t].held <==> Placed(g, t, |g.nodes|) && Persistent(g, t) {
      if Owned(g, t) && !g.tensors[t].output { GoneAtEnd(g, t); }
      assert s.hn[t].held <==> ShouldHold(g, t, |g.nodes|, |g.nodes|, 0);
    }
    NonInterferingRunsLikePrivate(g, PlanOf(s.hn));
  }
}
