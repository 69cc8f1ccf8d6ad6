/** A graph for which the planner cannot stop: its tensors are few enough for the free lists, and small
    enough for the last chunk. */
module PlannerSuccess {
  import opened Wrappers
  import opened FreeList
  import opened Chunks
  import opened DynTallocrs
  import opened DynTallocrLaws
  import opened Graphs
  import opened Executions
  import opened PlannerSpec
  import opened PlannerWalk
  import opened PlannerRuns

  // ---- one chunk

  /** Free blocks and live regions tile the chunk, and its high-water mark is at most `top`. */
  ghost predicate ChunkFits(v: View, capacity: nat, top: nat) {
    && Tiled(v.blocks, v.live, capacity)
    && (forall o :: o in v.live ==> o + v.live[o] <= v.maxSize) && v.maxSize <= top
  }

  /** The last chunk is virtually endless. */
  ghost predicate ViewFits(v: View, c: nat, top: nat) {
    exists capacity :: ChunkFits(v, capacity, top) && (c == MAX_CHUNKS - 1 ==> capacity == SIZE_MAX / 2)
  }

  ghost predicate ViewsFit(vs: seq<View>, top: nat) {
    |vs| <= MAX_CHUNKS && forall c :: 0 <= c < |vs| ==> ViewFits(vs[c], c, top)
  }

  lemma ServedFits(v: View, c: nat, top: nat, i: nat, n: nat)
    requires ViewFits(v, c, top) && i < |v.blocks| && 0 < n <= v.blocks[i].size
    ensures ViewFits(ServedView(v, i, n), c, top + n)
    ensures v.blocks[i].offset !in v.live
  {
    var capacity :| ChunkFits(v, capacity, top) && (c == MAX_CHUNKS - 1 ==> capacity == SIZE_MAX / 2);
    CarveTakes(v.blocks, i, n);
    TakeTiles(v.blocks, Carve(v.blocks, i, n), v.live, capacity, v.blocks[i].offset, n);
    HighWaterReachesTail(v.blocks, v.live, capacity, v.maxSize);
    assert v.blocks[i].offset <= v.blocks[|v.blocks| - 1].offset;
    assert ChunkFits(ServedView(v, i, n), capacity, top + n);
  }

  lemma NewChunkFits(c: nat, n: nat, maxChunkSize: nat, top: nat)
    requires 0 < n <= SIZE_MAX / 2
    ensures ViewFits(ServedView(View([Block(0, NewCapacity(c, n, maxChunkSize))], 0, map[]), 0, n), c, top + n)
  {
    var capacity := NewCapacity(c, n, maxChunkSize);
    var v := View([Block(0, capacity)], 0, map[]);
    forall x: nat ensures Covers(v.blocks, x) <==> x < capacity {
      if x < capacity { assert v.blocks[0].offset <= x < v.blocks[0].End(); }
    }
    assert ChunkFits(v, capacity, top);
    ServedFits(v, c, top, 0, n);
  }

  lemma ReleasedFits(v: View, v': View, c: nat, top: nat, offset: nat, n: nat, o: nat)
    requires ViewFits(v, c, top) && n > 0 && o in v.live && o <= offset && offset + n == o + v.live[o]
    requires Released(v.blocks, v'.blocks, offset, n) && v'.live == Shrink(v.live, o, offset)
    requires v'.maxSize == v.maxSize
    ensures ViewFits(v', c, top)
  {
    var capacity :| ChunkFits(v, capacity, top) && (c == MAX_CHUNKS - 1 ==> capacity == SIZE_MAX / 2);
    ReleaseTiles(v.blocks, v'.blocks, v.live, capacity, o, offset, n);
    assert ChunkFits(v', capacity, top);
  }

  /** The byte before a block that is not the first belongs to a live region behind the block before it. */
  lemma LiveBefore(v: View, capacity: nat, top: nat, i: nat) returns (o: nat)
    requires ChunkFits(v, capacity, top) && 0 < i < |v.blocks|
    ensures o in v.live && v.blocks[i - 1].End() <= o < v.blocks[i].offset
  {
    assert v.blocks[i - 1].End() < v.blocks[i].offset;
    var x := v.blocks[i].offset - 1;
    assert !Covers(v.blocks, x);
    assert Covers(v.blocks, v.blocks[i].offset);
    assert InLive(v.live, x);
    o :| o in v.live && o <= x < o + v.live[o];
    var last := v.blocks[i - 1].End() - 1;
    assert Covers(v.blocks, last);
    assert !InLive(v.live, last);
  }

  lemma {:induction false} GapsAreLive(v: View, capacity: nat, top: nat, n: nat) returns (between: set<nat>)
    requires ChunkFits(v, capacity, top) && 0 < n <= |v.blocks|
    ensures between <= v.live.Keys && |between| == n - 1
    ensures forall o :: o in between ==> o < v.blocks[n - 1].offset
  {
    if n == 1 {
      between := {};
    } else {
      between := GapsAreLive(v, capacity, top, n - 1);
      var o := LiveBefore(v, capacity, top, n - 1);
      between := between + {o};
    }
  }

  lemma SmallerSet<T>(a: set<T>, b: set<T>)
    requires a <= b
    ensures |a| <= |b|
  {
    assert b == a + (b - a);
  }

  /** There is at most one free block more than there are live regions. */
  lemma FewBlocks(v: View, c: nat, top: nat)
    requires ViewFits(v, c, top)
    ensures |v.blocks| <= |v.live.Keys| + 1
  {
    var capacity :| ChunkFits(v, capacity, top);
    if v.blocks != [] {
      var between := GapsAreLive(v, capacity, top, |v.blocks|);
      SmallerSet(between, v.live.Keys);
    }
  }

  // ---- one buffer

  lemma HandingOutFits(vs: seq<View>, vs': seq<View>, a: Addr, n: nat, buffer: BufferKind, top: nat)
    requires ViewsFit(vs, top) && HandedOut(vs, vs', a, n, buffer) && n > 0
    ensures ViewsFit(vs', top + n)
  {
    forall c | 0 <= c < |vs'| ensures ViewFits(vs'[c], c, top + n) {
      if NoInterior(vs, n) && NoTail(vs, n) {
        if c < |vs| { StillFits(vs[c], c, top, top + n); } else { NewChunkFits(c, n, buffer.maxChunkSize, top); }
      } else {
        var i: nat :| Chosen(vs, a.chunk, i, n) && a.offset == vs[a.chunk].blocks[i].offset
                      && vs' == vs[a.chunk := ServedView(vs[a.chunk], i, n)];
        ChosenFits(vs, a.chunk, i, n);
        if c == a.chunk { ServedFits(vs[c], c, top, i, n); } else { StillFits(vs[c], c, top, top + n); }
      }
    }
  }

  lemma StillFits(v: View, c: nat, top: nat, higher: nat)
    requires ViewFits(v, c, top) && top <= higher
    ensures ViewFits(v, c, higher)
  {
    var capacity :| ChunkFits(v, capacity, top) && (c == MAX_CHUNKS - 1 ==> capacity == SIZE_MAX / 2);
    assert ChunkFits(v, capacity, higher);
  }

  lemma GivingBackFits(vs: seq<View>, vs': seq<View>, a: Addr, keep: nat, whole: nat, top: nat)
    requires ViewsFit(vs, top) && GivenBack(vs, vs', a, keep, whole) && IsLive(vs, a, whole)
    ensures ViewsFit(vs', top)
  {
    if keep < whole {
      forall c | 0 <= c < |vs'| ensures ViewFits(vs'[c], c, top) {
        if c == a.chunk { ReleasedFits(vs[c], vs'[c], c, top, a.offset + keep, whole - keep, a.offset); }
      }
    }
  }

  lemma FittingIsSound(vs: seq<View>, top: nat)
    requires ViewsFit(vs, top)
    ensures SoundViews(vs)
  {
    forall a, n, b, m | IsLive(vs, a, n) && IsLive(vs, b, m) && a != b && a.chunk == b.chunk
      ensures a.offset + n <= b.offset || b.offset + m <= a.offset
    {
      assert ViewFits(vs[a.chunk], a.chunk, top);
    }
    forall a, n | IsLive(vs, a, n) ensures a.offset + n <= vs[a.chunk].maxSize {
      assert ViewFits(vs[a.chunk], a.chunk, top);
    }
  }

  /** While the marks are low, there is room in the last chunk. */
  lemma MemoryIsLeft(vs: seq<View>, top: nat, n: nat)
    requires ViewsFit(vs, top) && n > 0 && top + n <= SIZE_MAX / 2
    ensures !OutOfMemory(vs, n)
  {
    if |vs| == MAX_CHUNKS {
      var v := vs[MAX_CHUNKS - 1];
      assert ViewFits(v, MAX_CHUNKS - 1, top);
      HighWaterReachesTail(v.blocks, v.live, SIZE_MAX / 2, v.maxSize);
      assert TailFits(vs, MAX_CHUNKS - 1, n);
    }
  }

  // ---- the planner's state

  /** Tensor `t` holds the live region at `o` of chunk `c` in buffer `b`. */
  predicate HoldsAt(s: PState, t: nat, b: nat, c: nat, o: nat) {
    t < |s.hn| && s.hn[t].held && s.hn[t].bufferId == b && s.hn[t].addr == Addr(c, o)
  }

  /** Every live region is held by a tensor. */
  ghost predicate NothingLost(s: PState) {
    forall b, a, n ::
        0 <= b < |s.views| && IsLive(s.views[b], a, n) ==> exists t: nat :: HoldsAt(s, t, b, a.chunk, a.offset)
  }

  ghost predicate AllViewsFit(s: PState, top: nat) {
    forall b :: 0 <= b < |s.views| ==> ViewsFit(s.views[b], top)
  }

  ghost predicate Fits(g: Graph, al: Buffers, s: PState, top: nat) {
    Mem(g, al, s) && NothingLost(s) && AllViewsFit(s, top)
  }

  /** The tensors that the planner places. */
  function OwnedTensors(g: Graph): set<nat> {
    set t | 0 <= t < |g.tensors| && Owned(g, t)
  }

  lemma {:induction false} HoldersOf(g: Graph, al: Buffers, s: PState, b: nat, c: nat, keys: set<nat>)
    returns (holders: set<nat>)
    requires Mem(g, al, s) && NothingLost(s) && b < |s.views| && c < |s.views[b]|
    requires keys <= s.views[b][c].live.Keys
    ensures holders <= OwnedTensors(g) && |holders| == |keys|
    ensures forall t :: t in holders ==> t < |s.hn| && s.hn[t].addr.offset in keys
    decreases keys
  {
    if keys == {} {
      holders := {};
    } else {
      var o :| o in keys;
      assert IsLive(s.views[b], Addr(c, o), s.views[b][c].live[o]);
      var t: nat :| HoldsAt(s, t, b, c, o);
      assert Holds(g, al, s, t);
      var others := HoldersOf(g, al, s, b, c, keys - {o});
      holders := others + {t};
    }
  }

  /** With few tensors, no free list runs full. */
  lemma ListsAreShort(g: Graph, al: Buffers, s: PState, top: nat, b: nat, a: Addr, n: nat)
    requires Fits(g, al, s, top) && b < |s.views| && |OwnedTensors(g)| + 1 < MAX_FREE_BLOCKS
    ensures !FreeListFull(s.views[b], a, n)
  {
    if a.chunk < |s.views[b]| {
      var v := s.views[b][a.chunk];
      assert ViewFits(v, a.chunk, top);
      FewBlocks(v, a.chunk, top);
      var holders := HoldersOf(g, al, s, b, a.chunk, v.live.Keys);
      SmallerSet(holders, OwnedTensors(g));
    }
  }

  // ---- what the steps keep

  lemma PlacingFits(g: Graph, al: Buffers, s: PState, s': PState, t: nat, b: nat, top: nat, most: nat)
    requires Fits(g, al, s, top) && t < |g.tensors| && b < |al| && AllocateRel(g, al, s, s', t, b) && SizesOk(g, al)
    requires Reserved(g, al, t, b) <= most
    ensures Fits(g, al, s', top + most)
  {
    forall c | 0 <= c < |s'.views| ensures ViewsFit(s'.views[c], top + most) {
      BufferStillFits(g, al, s, s', t, b, top, most, c);
      FittingIsSound(s'.views[c], top + most);
    }
    forall c | 0 <= c < |s'.views| ensures SoundViews(s'.views[c]) { FittingIsSound(s'.views[c], top + most); }
    AllocateKeepsMem(g, al, s, s', t, b);
    PlacingLosesNothing(g, al, s, s', t, b);
  }

  lemma BufferStillFits(g: Graph, al: Buffers, s: PState, s': PState, t: nat, b: nat, top: nat, most: nat, c: nat)
    requires Mem(g, al, s) && AllViewsFit(s, top) && SizesOk(g, al)
    requires t < |g.tensors| && b < |al| && AllocateRel(g, al, s, s', t, b)
    requires Reserved(g, al, t, b) <= most && c < |s'.views|
    ensures ViewsFit(s'.views[c], top + most)
  {
    HigherFits(s.views[c], top, top + most);
    if !Skipped(g, s.hn, t) {
      match InplaceParent(g, s.hn, t)
      case Some(p) =>
        if c == s.hn[p].bufferId { ReusedBufferFits(g, al, s, s', t, p, top + most); }
      case None =>
        if c == b { ServingBufferFits(g, al, s, s', t, b, top, most); }
    }
  }

  lemma ReusedBufferFits(g: Graph, al: Buffers, s: PState, s': PState, t: nat, p: nat, top: nat)
    requires Mem(g, al, s) && t < |g.tensors| && p < |g.tensors| && s.hn[p].held && ReuseRel(g, al, s, s', t, p)
    requires ViewsFit(s.views[s.hn[p].bufferId], top)
    ensures ViewsFit(s'.views[s.hn[p].bufferId], top)
  {
    var pb := s.hn[p].bufferId;
    assert Holds(g, al, s, p);
    GivingBackFits(s.views[pb], s'.views[pb], s.hn[p].addr, Reserved(g, al, t, pb), Reserved(g, al, p, pb), top);
  }

  lemma ServingBufferFits(g: Graph, al: Buffers, s: PState, s': PState, t: nat, b: nat, top: nat, most: nat)
    requires t < |g.tensors| == |s.hn| && FreshRel(g, al, s, s', t, b) && SizesOk(g, al)
    requires ViewsFit(s.views[b], top) && Reserved(g, al, t, b) <= most
    ensures ViewsFit(s'.views[b], top + most)
  {
    var n := Reserved(g, al, t, b);
    AlignUpIsLeast(Size(g, t, b), al[b].alignment);
    HandingOutFits(s.views[b], s'.views[b], s'.hn[t].addr, n, al[b], top);
    HigherFits(s'.views[b], top + n, top + most);
  }

  lemma HigherFits(vs: seq<View>, top: nat, higher: nat)
    requires ViewsFit(vs, top) && top <= higher
    ensures ViewsFit(vs, higher)
  {
    forall c | 0 <= c < |vs| ensures ViewFits(vs[c], c, higher) { StillFits(vs[c], c, top, higher); }
  }

  lemma PlacingLosesNothing(g: Graph, al: Buffers, s: PState, s': PState, t: nat, b: nat)
    requires Mem(g, al, s) && NothingLost(s) && t < |g.tensors| && b < |al| && AllocateRel(g, al, s, s', t, b)
    requires SizesOk(g, al)
    ensures NothingLost(s')
  {
    if !Skipped(g, s.hn, t) {
      match InplaceParent(g, s.hn, t)
      case Some(p) =>
        assert Holds(g, al, s, p);
        ReuseTrims(g, al, s, s', t, p);
        TakingOverLosesNothing(s, s', t, p);
      case None =>
        FreshGrows(g, al, s, s', t, b);
        GrowingLosesNothing(s, s', t, b);
    }
  }

  /** The region of `p` passes to `t`. */
  lemma TakingOverLosesNothing(s: PState, s': PState, t: nat, p: nat)
    requires NothingLost(s) && t < |s.hn| && p < |s.hn| && t != p && !s.hn[t].held && |s'.views| == |s.views|
    requires s'.hn == s.hn[t := s.hn[t].(bufferId := s.hn[p].bufferId, addr := s.hn[p].addr, held := true)]
                          [p := s.hn[p].(held := false)]
    requires forall d, a, n :: 0 <= d < |s.views| && IsLive(s'.views[d], a, n) ==>
        (d == s.hn[p].bufferId && a == s.hn[p].addr) || IsLive(s.views[d], a, n)
    ensures NothingLost(s')
  {
    forall d, a, n | 0 <= d < |s'.views| && IsLive(s'.views[d], a, n)
      ensures exists u: nat :: HoldsAt(s', u, d, a.chunk, a.offset)
    {
      if d == s.hn[p].bufferId && a == s.hn[p].addr {
        assert HoldsAt(s', t, d, a.chunk, a.offset);
      } else {
        var u: nat :| HoldsAt(s, u, d, a.chunk, a.offset);
        assert HoldsAt(s', u, d, a.chunk, a.offset);
      }
    }
  }

  lemma GrowingLosesNothing(s: PState, s': PState, t: nat, b: nat)
    requires NothingLost(s) && t < |s.hn| == |s'.hn| && !s.hn[t].held && |s'.views| == |s.views| && b < |s.views|
    requires s'.hn == s.hn[t := s.hn[t].(bufferId := b, addr := s'.hn[t].addr, held := true)]
    requires forall d, a, n :: 0 <= d < |s.views| && IsLive(s'.views[d], a, n) ==>
        (d == b && a == s'.hn[t].addr) || IsLive(s.views[d], a, n)
    ensures NothingLost(s')
  {
    forall d, a, n | 0 <= d < |s'.views| && IsLive(s'.views[d], a, n)
      ensures exists u: nat :: HoldsAt(s', u, d, a.chunk, a.offset)
    {
      if d == b && a == s'.hn[t].addr {
        assert HoldsAt(s', t, d, a.chunk, a.offset);
      } else {
        var u: nat :| HoldsAt(s, u, d, a.chunk, a.offset);
        assert HoldsAt(s', u, d, a.chunk, a.offset);
      }
    }
  }

  lemma ReleasingFits(g: Graph, al: Buffers, s: PState, s': PState, t: nat, top: nat)
    requires Fits(g, al, s, top) && t < |g.tensors| && s.hn[t].held && FreeRel(g, al, s, s', t) && SizesOk(g, al)
    ensures Fits(g, al, s', top)
  {
    if !g.tensors[t].output {
      var b := s.hn[t].bufferId;
      assert Holds(g, al, s, t);
      FreeTrims(g, al, s, s', t);
      GivingBackFits(s.views[b], s'.views[b], s.hn[t].addr, 0, Reserved(g, al, t, b), top);
      forall c | 0 <= c < |s'.views| ensures SoundViews(s'.views[c]) { FittingIsSound(s'.views[c], top); }
      FreeKeepsMem(g, al, s, s', t);
      forall d, a, n | 0 <= d < |s'.views| && IsLive(s'.views[d], a, n)
        ensures exists u: nat :: HoldsAt(s', u, d, a.chunk, a.offset)
      {
        assert IsLive(s.views[d], a, n);
        var u: nat :| HoldsAt(s, u, d, a.chunk, a.offset);
        assert HoldsAt(s', u, d, a.chunk, a.offset);
      }
    }
  }

  /** Counting changes no holder. */
  lemma CountingFits(g: Graph, al: Buffers, s: PState, s': PState, top: nat)
    requires Fits(g, al, s, top) && s'.views == s.views && |s'.hn| == |s.hn|
    requires forall t :: 0 <= t < |s.hn| ==> s'.hn[t].held == s.hn[t].held && PlaceOf(s'.hn[t]) == PlaceOf(s.hn[t])
    ensures Fits(g, al, s', top)
  {
    CrossingKeepsMem(g, al, s, s');
    CountingLosesNothing(s, s');
  }

  lemma CountingLosesNothing(s: PState, s': PState)
    requires NothingLost(s) && s'.views == s.views && |s'.hn| == |s.hn|
    requires forall t :: 0 <= t < |s.hn| ==> s'.hn[t].held == s.hn[t].held && PlaceOf(s'.hn[t]) == PlaceOf(s.hn[t])
    ensures NothingLost(s')
  {
    forall d, a, n | 0 <= d < |s'.views| && IsLive(s'.views[d], a, n)
      ensures exists u: nat :: HoldsAt(s', u, d, a.chunk, a.offset)
    {
      var u: nat :| HoldsAt(s, u, d, a.chunk, a.offset);
      assert PlaceOf(s'.hn[u]) == PlaceOf(s.hn[u]);
      assert HoldsAt(s', u, d, a.chunk, a.offset);
    }
  }

  // ---- whole runs

  /** Operations that may work in place need no more room than a source of the same layout. */
  ghost predicate SizesFollowLayouts(g: Graph) {
    forall t, p, b: nat ::
        0 <= t < |g.tensors| && 0 <= p < |g.tensors|
        && g.tensors[t].canInplace && g.tensors[t].layout == g.tensors[p].layout ==>
        Size(g, t, b) <= Size(g, p, b)
  }

  /** No tensor needs more than `most` bytes in any buffer. */
  ghost predicate AtMost(g: Graph, al: Buffers, most: nat) {
    forall t, b :: 0 <= t < |g.tensors| && 0 <= b < |al| ==> Reserved(g, al, t, b) <= most
  }

  /** The steps name tensors and buffers. */
  ghost predicate InRange(g: Graph, al: Buffers, steps: seq<Step>) {
    forall k :: 0 <= k < |steps| ==> steps[k].t < |g.tensors| && (steps[k].Pass? || steps[k].b < |al|)
  }

  lemma CountedFits(g: Graph, al: Buffers, s: PState, st: Step, top: nat)
    requires Fits(g, al, s, top) && st.t < |g.tensors|
    ensures Fits(g, al, Counted(g, s, st), top)
  {
    CountingFits(g, al, s, Counted(g, s, st), top);
  }

  lemma StepFits(g: Graph, al: Buffers, s: PState, s': PState, st: Step, top: nat, most: nat)
    requires Fits(g, al, s, top) && StepRel(g, al, s, s', st) && SizesOk(g, al) && AtMost(g, al, most)
    requires st.Pass? || st.b < |al|
    ensures Fits(g, al, s', top + most)
  {
    match st
    case Give(t, b) => PlacingFits(g, al, s, s', t, b, top, most);
    case Pass(t) => PassingFits(g, al, s, s', t, top, most);
    case _ =>
      CountedFits(g, al, s, st, top);
      OfferingFits(g, al, Counted(g, s, st), s', st.t, st.b, top, most);
  }

  lemma PassingFits(g: Graph, al: Buffers, s: PState, s': PState, t: nat, top: nat, most: nat)
    requires Fits(g, al, s, top) && t < |g.tensors| && SlotRel(g, al, s, s', t) && SizesOk(g, al)
    ensures Fits(g, al, s', top + most)
  {
    var mid := PState(CrossOff(g, s.hn, t), s.views);
    CountingFits(g, al, s, mid, top);
    var r := ToFree(g, mid.hn, t);
    if r.Some? { ReleasingFits(g, al, mid, s', r.value, top); }
    FitsHigher(g, al, s', top, top + most);
  }

  lemma OfferingFits(g: Graph, al: Buffers, s: PState, s': PState, t: nat, b: nat, top: nat, most: nat)
    requires Fits(g, al, s, top) && t < |g.tensors| && b < |al| && OfferInput(g, al, s, s', t, b) && SizesOk(g, al)
    requires Reserved(g, al, t, b) <= most
    ensures Fits(g, al, s', top + most)
  {
    if g.tensors[t].input { PlacingFits(g, al, s, s', t, b, top, most); }
    else { FitsHigher(g, al, s', top, top + most); }
  }

  lemma FitsHigher(g: Graph, al: Buffers, s: PState, top: nat, higher: nat)
    requires Fits(g, al, s, top) && top <= higher
    ensures Fits(g, al, s, higher)
  {
    forall b | 0 <= b < |s.views| ensures ViewsFit(s.views[b], higher) { HigherFits(s.views[b], top, higher); }
  }

  lemma PlacingGoesThrough(g: Graph, al: Buffers, s: PState, t: nat, b: nat, top: nat, most: nat)
    requires Fits(g, al, s, top) && t < |g.tensors| && b < |al| && SizesOk(g, al) && AtMost(g, al, most)
    requires top + most <= SIZE_MAX / 2 && |OwnedTensors(g)| + 1 < MAX_FREE_BLOCKS && SizesFollowLayouts(g)
    requires forall p :: 0 <= p < |s.hn| && s.hn[p].held ==> s.hn[p].bufferId < |al|
    ensures !AllocateAborts(g, al, s, t, b)
  {
    if !Skipped(g, s.hn, t) {
      match InplaceParent(g, s.hn, t)
      case Some(p) =>
        var pb, a := s.hn[p].bufferId, s.hn[p].addr;
        var n, m := Reserved(g, al, t, pb), Reserved(g, al, p, pb);
        assert Size(g, t, pb) <= Size(g, p, pb);
        if n < m { ListsAreShort(g, al, s, top, pb, Addr(a.chunk, a.offset + n), m - n); }
      case None =>
        var n := Reserved(g, al, t, b);
        AlignUpIsLeast(Size(g, t, b), al[b].alignment);
        MemoryIsLeft(s.views[b], top, n);
    }
  }

  lemma StepGoesThrough(g: Graph, al: Buffers, s: PState, st: Step, top: nat, most: nat)
    requires Fits(g, al, s, top) && SizesOk(g, al) && AtMost(g, al, most)
    requires top + most <= SIZE_MAX / 2 && |OwnedTensors(g)| + 1 < MAX_FREE_BLOCKS && SizesFollowLayouts(g)
    ensures !StepAborts(g, al, s, st)
  {
    forall p | 0 <= p < |s.hn| && s.hn[p].held ensures s.hn[p].bufferId < |al| { assert Holds(g, al, s, p); }
    if st.t < |g.tensors| {
      match st
      case Give(t, b) => if b < |al| { PlacingGoesThrough(g, al, s, t, b, top, most); }
      case Pass(t) =>
        var mid := PState(CrossOff(g, s.hn, t), s.views);
        CountingFits(g, al, s, mid, top);
        var r := ToFree(g, mid.hn, t);
        if r.Some? {
          var b := mid.hn[r.value].bufferId;
          assert Holds(g, al, mid, r.value);
          ListsAreShort(g, al, mid, top, b, mid.hn[r.value].addr, Reserved(g, al, r.value, b));
        }
      case _ =>
        CountedFits(g, al, s, st, top);
        var mid := Counted(g, s, st);
        forall p | 0 <= p < |mid.hn| && mid.hn[p].held
          ensures mid.hn[p].bufferId < |al|
        {
          assert Holds(g, al, mid, p);
        }
        if st.b < |al| { PlacingGoesThrough(g, al, mid, st.t, st.b, top, most); }
    }
  }

  /** No mark is higher than this after `n` steps. */
  function Mark(n: nat, most: nat): nat {
    if n == 0 then 0 else Mark(n - 1, most) + most
  }

  lemma {:induction false} MarkIs(n: nat, most: nat)
    ensures Mark(n, most) == n * most
  {
    if n > 0 { MarkIs(n - 1, most); }
  }

  lemma {:induction false} RunFits(g: Graph, al: Buffers, s: PState, steps: seq<Step>, s': PState, most: nat)
    requires Fits(g, al, s, 0) && Runs(g, al, s, steps, s') && InRange(g, al, steps)
    requires SizesOk(g, al) && AtMost(g, al, most)
    ensures Fits(g, al, s', Mark(|steps|, most))
    decreases |steps|
  {
    if steps != [] {
      var n := |steps| - 1;
      var mid :| LastStep(g, al, s, steps, mid, s');
      assert InRange(g, al, steps[..n]);
      RunFits(g, al, s, steps[..n], mid, most);
      var mark := Mark(n, most);
      assert Mark(|steps|, most) == mark + most;
      StepFits(g, al, mid, s', steps[n], mark, most);
    }
  }

  lemma NothingPlannedFits(g: Graph, al: Buffers)
    ensures Fits(g, al, Empty(g, seq(|al|, _ => [])), 0)
  {
  }

  /** A program that names tensors and buffers of the graph is run to its end, if at most 254 tensors are
      to be placed, sizes follow layouts, and the number of steps times the largest size does not exceed
      the largest chunk. */
  lemma SmallGraphsDoNotStop(g: Graph, al: Buffers, steps: seq<Step>, most: nat)
    requires InRange(g, al, steps) && SizesOk(g, al) && AtMost(g, al, most) && SizesFollowLayouts(g)
    requires |OwnedTensors(g)| + 1 < MAX_FREE_BLOCKS && |steps| * most <= SIZE_MAX / 2
    ensures !Stops(g, al, Empty(g, seq(|al|, _ => [])), steps)
  {
    var s := Empty(g, seq(|al|, _ => []));
    NothingPlannedFits(g, al);
    forall k: nat, mid: PState ensures !StopsAt(g, al, s, steps, k, mid) {
      if k < |steps| && Runs(g, al, s, steps[..k], mid) {
        RunFits(g, al, s, steps[..k], mid, most);
        MarkIs(k, most);
        StepsStayBelow(k, |steps|, most);
        StepGoesThrough(g, al, mid, steps[k], Mark(k, most), most);
      }
    }
  }

  lemma StepsStayBelow(k: nat, n: nat, most: nat)
    requires k < n
    ensures k * most + most <= n * most
  {
    assert n * most == (k + 1) * most + (n - k - 1) * most;
  }

  // ---- the program of a graph

  lemma InRangeBoth(g: Graph, al: Buffers, a: seq<Step>, b: seq<Step>)
    requires InRange(g, al, a) && InRange(g, al, b)
    ensures InRange(g, al, a + b)
  {
  }

  /** The buffers chosen for nodes, or leafs, exist. */
  ghost predicate BuffersExist(al: Buffers, bs: seq<nat>) {
    forall i :: 0 <= i < |bs| ==> bs[i] < |al|
  }

  lemma {:induction false} LeafsInRange(g: Graph, al: Buffers, bs: seq<nat>, n: nat)
    requires n <= |g.leafs| == |bs| && BuffersExist(al, bs)
    ensures InRange(g, al, LeafSteps(g, bs, n))
  {
    if n > 0 { LeafsInRange(g, al, bs, n - 1); }
  }

  lemma {:induction false} CountsInRange(g: Graph, al: Buffers, i: nat, b: nat, j: nat)
    requires i < |g.nodes| && j <= |Src(g, i)| && b < |al|
    ensures InRange(g, al, CountSteps(g, i, b, j))
  {
    if j > 0 { CountsInRange(g, al, i, b, j - 1); }
  }

  lemma {:induction false} ParentsInRange(g: Graph, al: Buffers, i: nat, b: nat, j: nat)
    requires i < |g.nodes| && j <= |Src(g, i)| && b < |al|
    ensures InRange(g, al, ParentSteps(g, i, b, j))
  {
    if j > 0 { ParentsInRange(g, al, i, b, j - 1); }
  }

  lemma {:induction false} NodeInRange(g: Graph, al: Buffers, i: nat, b: nat, j: nat)
    requires i < |g.nodes| && j <= |Src(g, i)| && b < |al|
    ensures InRange(g, al, NodeSteps(g, i, b, j))
  {
    if j == 0 { ParentsInRange(g, al, i, b, |Src(g, i)|); } else { NodeInRange(g, al, i, b, j - 1); }
  }

  lemma {:induction false} NodesInRange(g: Graph, al: Buffers, bs: seq<nat>, n: nat)
    requires n <= |g.nodes| == |bs| && BuffersExist(al, bs)
    ensures InRange(g, al, CountAll(g, bs, n)) && InRange(g, al, WalkSteps(g, bs, n))
  {
    if n > 0 {
      NodesInRange(g, al, bs, n - 1);
      CountsInRange(g, al, n - 1, bs[n - 1], |Src(g, n - 1)|);
      NodeInRange(g, al, n - 1, bs[n - 1], |Src(g, n - 1)|);
      InRangeBoth(g, al, CountAll(g, bs, n - 1), CountSteps(g, n - 1, bs[n - 1], |Src(g, n - 1)|));
      InRangeBoth(g, al, WalkSteps(g, bs, n - 1), NodeSteps(g, n - 1, bs[n - 1], |Src(g, n - 1)|));
    }
  }

  /** The planner succeeds on every such graph: a reservation for it stops nowhere. */
  lemma SmallGraphsArePlanned(g: Graph, al: Buffers, nodeBuffers: seq<nat>, leafBuffers: seq<nat>, most: nat)
    requires |nodeBuffers| == |g.nodes| && BuffersExist(al, nodeBuffers) && |leafBuffers| == |g.leafs|
    requires BuffersExist(al, leafBuffers)
    requires SizesOk(g, al) && AtMost(g, al, most) && SizesFollowLayouts(g) && |OwnedTensors(g)| + 1 < MAX_FREE_BLOCKS
    requires |PlanSteps(g, nodeBuffers, leafBuffers)| * most <= SIZE_MAX / 2
    ensures !Stops(g, al, Empty(g, seq(|al|, _ => [])), PlanSteps(g, nodeBuffers, leafBuffers))
  {
    var counts, walk := CountAll(g, nodeBuffers, |g.nodes|), WalkSteps(g, nodeBuffers, |g.nodes|);
    LeafsInRange(g, al, leafBuffers, |g.leafs|);
    NodesInRange(g, al, nodeBuffers, |g.nodes|);
    InRangeBoth(g, al, counts, walk);
    InRangeBoth(g, al, LeafSteps(g, leafBuffers, |g.leafs|), counts + walk);
    SmallGraphsDoNotStop(g, al, PlanSteps(g, nodeBuffers, leafBuffers), most);
  }
}
