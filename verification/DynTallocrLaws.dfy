/** What holds of the allocator across calls. */
module DynTallocrLaws {
  import opened FreeList
  import opened Chunks
  import opened DynTallocrs

  /** The byte just below the last free block, and the last byte of the chunk, are live. */
  lemma HighWaterReachesTail(bs: seq<Block>, live: map<nat, nat>, capacity: nat, maxSize: nat)
    requires Tiled(bs, live, capacity) && capacity > 0
    requires forall o :: o in live ==> o + live[o] <= maxSize
    ensures bs != [] ==> bs[|bs| - 1].offset <= maxSize
    ensures bs == [] || bs[|bs| - 1].End() != capacity ==> capacity <= maxSize
  {
    if bs != [] {
      var tail := bs[|bs| - 1];
      assert Covers(bs, tail.End() - 1);
      if tail.offset > 0 {
        assert !Covers(bs, tail.offset - 1);
        assert InLive(live, tail.offset - 1);
      }
    }
    if bs == [] || bs[|bs| - 1].End() != capacity {
      assert !Covers(bs, capacity - 1);
      assert InLive(live, capacity - 1);
    }
  }

  /** A request is refused only when all sixteen chunks are open and the last chunk's high-water
      mark plus the request exceeds the virtually endless size of that chunk. */
  lemma RefusedOnlyWhenFull(t: DynTallocr, size: nat)
    requires t.Valid() && size > 0 && OutOfMemory(t.views, size)
    ensures |t.views| == MAX_CHUNKS
    ensures t.views[MAX_CHUNKS - 1].maxSize + size > SIZE_MAX / 2
  {
    var k := t.chunks[MAX_CHUNKS - 1];
    var v := t.views[MAX_CHUNKS - 1];
    assert v == ViewOf(k) && ChunkOk(k, t.alignment);
    HighWaterReachesTail(v.blocks, v.live, k.capacity, v.maxSize);
    assert !TailFits(t.views, MAX_CHUNKS - 1, size);
  }

  /** Serving a request and returning it at once leaves every free list exactly as it was, except
      that a chunk opened for the request stays behind, entirely free. */
  lemma ServeThenReleaseIsIdentity(t: DynTallocr, vs': seq<View>, vs'': seq<View>, addr: Addr, size: nat)
    requires t.Valid() && size > 0
    requires Served(t.views, vs', addr, size, t.maxChunkSize)
    requires ReleasedIn(vs', vs'', addr, size, addr.offset)
    ensures forall c :: 0 <= c < |t.views| ==> vs''[c].blocks == t.views[c].blocks && vs''[c].live == t.views[c].live
    ensures |vs''| > |t.views| ==> vs''[|t.views|].blocks == [Block(0, NewCapacity(|t.views|, size, t.maxChunkSize))]
                                   && vs''[|t.views|].live == map[]
  {
    var vs := t.views;
    if NoInterior(vs, size) && NoTail(vs, size) {
      NewChunkAndReturn(vs, vs', vs'', addr, size, t.maxChunkSize);
    } else {
      var i: nat :| Chosen(vs, addr.chunk, i, size) && addr.offset == vs[addr.chunk].blocks[i].offset
                    && vs' == vs[addr.chunk := ServedView(vs[addr.chunk], i, size)];
      ChosenAndReturned(t, vs', vs'', addr, i, size);
    }
  }

  lemma ChosenAndReturned(t: DynTallocr, vs': seq<View>, vs'': seq<View>, addr: Addr, i: nat, size: nat)
    requires t.Valid() && size > 0 && Chosen(t.views, addr.chunk, i, size)
    requires addr.offset == t.views[addr.chunk].blocks[i].offset
    requires vs' == t.views[addr.chunk := ServedView(t.views[addr.chunk], i, size)]
    requires ReleasedIn(vs', vs'', addr, size, addr.offset)
    ensures |vs''| == |t.views|
    ensures forall c :: 0 <= c < |t.views| ==> vs''[c].blocks == t.views[c].blocks && vs''[c].live == t.views[c].live
  {
    ChosenFits(t.views, addr.chunk, i, size);
    ChunkIsTiled(t, addr.chunk);
    CarveAndReturn(t.views[addr.chunk], vs''[addr.chunk], t.chunks[addr.chunk].capacity, i, size);
  }

  lemma ChunkIsTiled(t: DynTallocr, c: nat)
    requires t.Valid() && c < |t.views|
    ensures |t.chunks| == |t.views| && Tiled(t.views[c].blocks, t.views[c].live, t.chunks[c].capacity)
  {
    assert t.views[c] == ViewOf(t.chunks[c]) && ChunkOk(t.chunks[c], t.alignment);
  }

  lemma NewChunkAndReturn(vs: seq<View>, vs': seq<View>, vs'': seq<View>, addr: Addr, size: nat, maxChunkSize: nat)
    requires size > 0 && NoInterior(vs, size) && NoTail(vs, size) && Served(vs, vs', addr, size, maxChunkSize)
    requires ReleasedIn(vs', vs'', addr, size, addr.offset)
    ensures |vs''| == |vs| + 1 && vs''[..|vs|] == vs
    ensures vs''[|vs|].blocks == [Block(0, NewCapacity(|vs|, size, maxChunkSize))] && vs''[|vs|].live == map[]
  {
    var whole := [Block(0, NewCapacity(|vs|, size, maxChunkSize))];
    CarveTakes(whole, 0, size);
    TakeReleaseIsIdentity(whole, vs'[|vs|].blocks, vs''[|vs|].blocks, 0, size);
  }

  lemma CarveAndReturn(v: View, v'': View, capacity: nat, i: nat, size: nat)
    requires Tiled(v.blocks, v.live, capacity) && i < |v.blocks| && 0 < size <= v.blocks[i].size
    requires Released(Carve(v.blocks, i, size), v''.blocks, v.blocks[i].offset, size)
    requires v''.live == v.live[v.blocks[i].offset := size] - {v.blocks[i].offset}
    ensures v''.blocks == v.blocks && v''.live == v.live
  {
    CarveTakes(v.blocks, i, size);
    TakeReleaseIsIdentity(v.blocks, Carve(v.blocks, i, size), v''.blocks, v.blocks[i].offset, size);
    FreeStartIsNotLive(v.blocks, v.live, capacity, i);
  }

  lemma FreeStartIsNotLive(bs: seq<Block>, live: map<nat, nat>, capacity: nat, i: nat)
    requires Tiled(bs, live, capacity) && i < |bs|
    ensures bs[i].offset !in live
  {
    assert Covers(bs, bs[i].offset);
    assert !InLive(live, bs[i].offset);
  }

  /** Live regions of a chunk never overlap, and all of them lie below the high-water mark. */
  lemma LiveRegionsApart(t: DynTallocr, c: nat, o: nat, p: nat)
    requires t.Valid() && c < |t.views|
    requires o in t.views[c].live && p in t.views[c].live && o != p
    ensures o + t.views[c].live[o] <= p || p + t.views[c].live[p] <= o
    ensures o + t.views[c].live[o] <= t.views[c].maxSize
  {
    assert t.views[c] == ViewOf(t.chunks[c]) && ChunkOk(t.chunks[c], t.alignment);
  }

  lemma LiveBelowMark(t: DynTallocr, c: nat, o: nat)
    requires t.Valid() && c < |t.views| && o in t.views[c].live
    ensures o + t.views[c].live[o] <= t.views[c].maxSize
  {
    assert t.views[c] == ViewOf(t.chunks[c]) && ChunkOk(t.chunks[c], t.alignment);
  }

  // ---- the allocator is deterministic

  lemma ServedIsUnique(vs: seq<View>, v1: seq<View>, v2: seq<View>, a1: Addr, a2: Addr, size: nat, maxChunkSize: nat)
    requires Served(vs, v1, a1, size, maxChunkSize) && Served(vs, v2, a2, size, maxChunkSize)
    ensures a1 == a2 && v1 == v2
  {
    if !(NoInterior(vs, size) && NoTail(vs, size)) {
      var i: nat :| Chosen(vs, a1.chunk, i, size) && a1.offset == vs[a1.chunk].blocks[i].offset
                    && v1 == vs[a1.chunk := ServedView(vs[a1.chunk], i, size)];
      var k: nat :| Chosen(vs, a2.chunk, k, size) && a2.offset == vs[a2.chunk].blocks[k].offset
                    && v2 == vs[a2.chunk := ServedView(vs[a2.chunk], k, size)];
      ChosenUnique(vs, a1.chunk, i, a2.chunk, k, size);
    }
  }

  lemma ReleasedInIsUnique(vs: seq<View>, v1: seq<View>, v2: seq<View>, addr: Addr, size: nat, o: nat)
    requires ReleasedIn(vs, v1, addr, size, o) && ReleasedIn(vs, v2, addr, size, o)
    ensures v1 == v2
  {
    var c := addr.chunk;
    CanonicalUnique(v1[c].blocks, v2[c].blocks);
    forall d | 0 <= d < |vs| ensures v1[d] == v2[d] {}
  }

  // ---- how much the chunks grow

  /** Bytes by which the high-water mark has to rise for block `i` to serve the request. */
  function Rise(v: View, i: nat, size: nat): nat
    requires i < |v.blocks|
  {
    if v.blocks[i].offset + size > v.maxSize then v.blocks[i].offset + size - v.maxSize else 0
  }

  /** Only the last block of a chunk can make it grow. */
  lemma InteriorNeedsNoRise(v: View, capacity: nat, i: nat, size: nat)
    requires Tiled(v.blocks, v.live, capacity) && capacity > 0 && forall o :: o in v.live ==> o + v.live[o] <= v.maxSize
    requires i + 1 < |v.blocks| && size <= v.blocks[i].size
    ensures Rise(v, i, size) == 0
  {
    HighWaterReachesTail(v.blocks, v.live, capacity, v.maxSize);
    var tail := v.blocks[|v.blocks| - 1];
    assert v.blocks[i].End() <= tail.offset;
  }

  /** A request that some free block fits is served from a block that makes its chunk grow least, and the
      other chunks are left alone. */
  lemma GrowsLeast(t: DynTallocr, vs': seq<View>, addr: Addr, size: nat, d: nat, k: nat)
    requires t.Valid() && size > 0 && Served(t.views, vs', addr, size, t.maxChunkSize)
    requires d < |t.views| && k < |t.views[d].blocks| && size <= t.views[d].blocks[k].size
    ensures addr.chunk < |t.views| == |vs'|
    ensures vs'[addr.chunk].maxSize <= t.views[addr.chunk].maxSize + Rise(t.views[d], k, size)
    ensures forall c :: 0 <= c < |vs'| && c != addr.chunk ==> vs'[c] == t.views[c]
  {
    var vs := t.views;
    assert FitsInterior(vs, d, k, size) || TailFits(vs, d, size);
    var i: nat :| Chosen(vs, addr.chunk, i, size) && addr.offset == vs[addr.chunk].blocks[i].offset
                  && vs' == vs[addr.chunk := ServedView(vs[addr.chunk], i, size)];
    ChosenFits(vs, addr.chunk, i, size);
    RiseIsLeast(t, addr.chunk, i, d, k, size);
  }

  lemma RiseIsLeast(t: DynTallocr, c: nat, i: nat, d: nat, k: nat, size: nat)
    requires t.Valid() && Chosen(t.views, c, i, size)
    requires d < |t.views| && k < |t.views[d].blocks| && size <= t.views[d].blocks[k].size
    ensures c < |t.views| && i < |t.views[c].blocks| && Rise(t.views[c], i, size) <= Rise(t.views[d], k, size)
  {
    ChosenFits(t.views, c, i, size);
    if NoInterior(t.views, size) {
      assert !FitsInterior(t.views, d, k, size);
      TailIsCheapest(t.views, c, d, size);
    } else {
      assert FitsInterior(t.views, c, i, size);
      InteriorIsFree(t, c, i, size);
    }
  }

  lemma TailIsCheapest(vs: seq<View>, c: nat, d: nat, size: nat)
    requires BestTail(vs, c, size) && TailFits(vs, d, size)
    ensures Rise(vs[c], |vs[c].blocks| - 1, size) <= Rise(vs[d], |vs[d].blocks| - 1, size)
  {
  }

  lemma InteriorIsFree(t: DynTallocr, c: nat, i: nat, size: nat)
    requires t.Valid() && FitsInterior(t.views, c, i, size)
    ensures Rise(t.views[c], i, size) == 0
  {
    var v, k := t.views[c], t.chunks[c];
    ChunkIsTiled(t, c);
    assert ChunkOk(k, t.alignment) && v == ViewOf(k);
    BlockInside(v.blocks, v.live, k.capacity, i);
    InteriorNeedsNoRise(v, k.capacity, i, size);
  }

  lemma BlockInside(bs: seq<Block>, live: map<nat, nat>, capacity: nat, i: nat)
    requires Tiled(bs, live, capacity) && i < |bs|
    ensures 0 < bs[i].End() <= capacity
  {
    assert Covers(bs, bs[i].End() - 1);
  }

  // ---- how large a new chunk is

  /** Bytes below `capacity` are free or live, and no others. */
  ghost predicate Spans(v: View, capacity: nat) {
    forall x: nat :: Covers(v.blocks, x) || InLive(v.live, x) <==> x < capacity
  }

  /** A chunk that is opened has the size of the request or, if that is larger, the limit; the sixteenth is
      virtually endless. */
  lemma NewChunkSpans(vs: seq<View>, vs': seq<View>, addr: Addr, size: nat, maxChunkSize: nat)
    requires 0 < size <= SIZE_MAX / 2 && Served(vs, vs', addr, size, maxChunkSize) && |vs'| > |vs|
    ensures addr == Addr(|vs|, 0) && |vs'| == |vs| + 1
    ensures |vs| < MAX_CHUNKS - 1 && size <= maxChunkSize ==> Spans(vs'[|vs|], maxChunkSize)
    ensures |vs| < MAX_CHUNKS - 1 && size > maxChunkSize ==> Spans(vs'[|vs|], size)
    ensures |vs| == MAX_CHUNKS - 1 ==> Spans(vs'[|vs|], SIZE_MAX / 2)
  {
    var capacity := NewCapacity(|vs|, size, maxChunkSize);
    var whole := [Block(0, capacity)];
    CarveTakes(whole, 0, size);
    forall x: nat ensures Covers(whole, x) <==> x < capacity {
      if x < capacity { assert whole[0].offset <= x < whole[0].End(); }
    }
    forall x: nat ensures InLive(vs'[|vs|].live, x) <==> x < size {
      if x < size { assert 0 in vs'[|vs|].live; }
    }
  }

  /** So requests share a chunk as long as they fit the limit together. */
  lemma RequestsShareChunk(vs: seq<View>, vs': seq<View>, addr: Addr, size: nat, maxChunkSize: nat, more: nat)
    requires 0 < size && 0 < more && Served(vs, vs', addr, size, maxChunkSize) && |vs| < |vs'| < MAX_CHUNKS
    requires size + more <= maxChunkSize
    ensures forall vs'': seq<View>, addr': Addr ::
        Served(vs', vs'', addr', more, maxChunkSize) ==> addr'.chunk < |vs'| == |vs''|
  {
    var v := vs'[|vs|];
    assert v.blocks == Carve([Block(0, maxChunkSize)], 0, size) == [Block(size, maxChunkSize - size)];
    assert TailFits(vs', |vs|, more);
    forall vs'': seq<View>, addr': Addr | Served(vs', vs'', addr', more, maxChunkSize)
      ensures addr'.chunk < |vs'| == |vs''|
    {
      var i: nat :| Chosen(vs', addr'.chunk, i, more) && addr'.offset == vs'[addr'.chunk].blocks[i].offset
                    && vs'' == vs'[addr'.chunk := ServedView(vs'[addr'.chunk], i, more)];
    }
  }
}
