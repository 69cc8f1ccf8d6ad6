/** The dynamic tensor allocator: up to sixteen chunks, each with its own free list. */
module DynTallocrs {
  import opened Arithmetic
  import opened Wrappers
  import opened FreeList
  import opened Chunks

  /** A location inside an allocation that is split over several buffers. */
  datatype Addr = Addr(chunk: nat, offset: nat)

  const MAX_CHUNKS := 16
  const SIZE_MAX := 0xFFFF_FFFF_FFFF_FFFF
  const INT64_MIN := -0x8000_0000_0000_0000

  // ---- alignment

  function AlignUp(size: nat, alignment: nat): nat
    requires alignment > 0
  {
    size + (alignment - size % alignment) % alignment
  }

  ghost predicate Multiple(x: int, alignment: nat) {
    exists k: int :: x == k * alignment
  }

  lemma MultipleSum(x: int, y: int, alignment: nat)
    requires Multiple(x, alignment) && Multiple(y, alignment)
    ensures Multiple(x + y, alignment) && Multiple(x - y, alignment)
  {
    var k :| x == k * alignment;
    var m :| y == m * alignment;
    assert x + y == (k + m) * alignment;
    assert x - y == (k - m) * alignment;
  }

  lemma AlignUpQuotient(size: nat, alignment: nat) returns (up: nat)
    requires alignment > 0
    ensures AlignUp(size, alignment) == up * alignment
    ensures size <= up * alignment < size + alignment
  {
    var q, m := size / alignment, size % alignment;
    assert size == q * alignment + m;
    if m == 0 {
      up := q;
    } else {
      up := q + 1;
      assert up * alignment == q * alignment + alignment;
      assert (alignment - m) % alignment == alignment - m;
    }
  }

  lemma MultiplesApart(a: int, b: int, alignment: nat)
    requires a < b
    ensures a * alignment + alignment <= b * alignment
  {
    Distribute(alignment, a, 1);
    Distribute(alignment, a + 1, b - a - 1);
    NotNegative(b - a - 1, alignment);
  }

  /** The aligned size is the least multiple of the alignment that is no smaller. */
  lemma AlignUpIsLeast(size: nat, alignment: nat)
    requires alignment > 0
    ensures size <= AlignUp(size, alignment) < size + alignment
    ensures Multiple(AlignUp(size, alignment), alignment)
    ensures forall y: nat :: size <= y && Multiple(y, alignment) ==> AlignUp(size, alignment) <= y
  {
    var up := AlignUpQuotient(size, alignment);
    forall y: nat | size <= y && Multiple(y, alignment) ensures AlignUp(size, alignment) <= y {
      var k :| y == k * alignment;
      if k < up { MultiplesApart(k, up, alignment); }
      if up < k { MultiplesApart(up, k, alignment); }
    }
  }

  lemma AlignUpFixed(size: nat, alignment: nat)
    requires alignment > 0 && Multiple(size, alignment)
    ensures AlignUp(size, alignment) == size
  {
    AlignUpIsLeast(size, alignment);
  }

  lemma AlignUpMonotone(size: nat, larger: nat, alignment: nat)
    requires alignment > 0 && size <= larger
    ensures AlignUp(size, alignment) <= AlignUp(larger, alignment)
  {
    AlignUpIsLeast(size, alignment);
    AlignUpIsLeast(larger, alignment);
  }

  /** What is left over of an aligned size is aligned. */
  lemma ExtraIsAligned(size: nat, larger: nat, alignment: nat)
    requires alignment > 0 && size <= larger
    ensures AlignUp(size, alignment) <= AlignUp(larger, alignment)
    ensures var extra := AlignUp(larger, alignment) - AlignUp(size, alignment); AlignUp(extra, alignment) == extra
  {
    AlignUpIsLeast(larger, alignment);
    AlignUpIsLeast(size, alignment);
    AlignUpMonotone(size, larger, alignment);
    MultipleSum(AlignUp(larger, alignment), AlignUp(size, alignment), alignment);
    AlignUpFixed(AlignUp(larger, alignment) - AlignUp(size, alignment), alignment);
  }

  // ---- which free block a request is served from

  /** The contents of a chunk: its free list, its high-water mark, its live regions by offset. */
  datatype View = View(blocks: seq<Block>, maxSize: nat, live: map<nat, nat>)

  ghost function ViewOf(k: Chunk): View
    reads k, k.freeBlocks
    requires k.nFreeBlocks <= k.freeBlocks.Length
  {
    View(k.Blocks(), k.maxSize, k.live)
  }

  ghost predicate FitsInterior(vs: seq<View>, c: nat, i: nat, size: nat) {
    c < |vs| && i + 1 < |vs[c].blocks| && vs[c].blocks[i].size >= size
  }

  /** The smallest fitting block of its chunk that is not the chunk's last one (the last such block
      on ties), in the last of the first `n` chunks that has any. */
  ghost predicate BestInteriorBelow(vs: seq<View>, n: nat, c: nat, i: nat, size: nat) {
    && c < n && FitsInterior(vs, c, i, size)
    && (forall d: nat, k: nat :: c < d < n ==> !FitsInterior(vs, d, k, size))
    && BestOfChunk(vs, c, i, size)
  }

  ghost predicate BestOfChunk(vs: seq<View>, c: nat, i: nat, size: nat)
    requires FitsInterior(vs, c, i, size)
  {
    forall k: nat :: FitsInterior(vs, c, k, size) && k != i ==>
      if k < i then vs[c].blocks[i].size <= vs[c].blocks[k].size
               else vs[c].blocks[i].size < vs[c].blocks[k].size
  }

  ghost predicate BestInterior(vs: seq<View>, c: nat, i: nat, size: nat) {
    BestInteriorBelow(vs, |vs|, c, i, size)
  }

  ghost predicate TailFits(vs: seq<View>, c: nat, size: nat) {
    c < |vs| && vs[c].blocks != [] && vs[c].blocks[|vs[c].blocks| - 1].size >= size
  }

  function Tail(v: View): Block
    requires v.blocks != []
  {
    v.blocks[|v.blocks| - 1]
  }

  /** Bytes by which the chunk's high-water mark rises if its last block serves the request. */
  function Growth(v: View, size: nat): nat
    requires v.blocks != []
  {
    if Tail(v).offset + size > v.maxSize then Tail(v).offset + size - v.maxSize else 0
  }

  /** Bytes below the high-water mark that stay unused if its last block serves the request. */
  function Waste(v: View, size: nat): nat
    requires v.blocks != []
  {
    if Tail(v).offset + size < v.maxSize then v.maxSize - (Tail(v).offset + size) else 0
  }

  ghost predicate LessCost(v: View, w: View, size: nat)
    requires v.blocks != [] && w.blocks != []
  {
    Growth(v, size) < Growth(w, size) || (Growth(v, size) == Growth(w, size) && Waste(v, size) < Waste(w, size))
  }

  /** The last block whose use grows its chunk least, then wastes least; the first on ties. */
  ghost predicate BestTail(vs: seq<View>, c: nat, size: nat) {
    BestTailBelow(vs, |vs|, c, size)
  }

  ghost predicate BestTailBelow(vs: seq<View>, n: nat, c: nat, size: nat) {
    && c < n && TailFits(vs, c, size)
    && forall d: nat :: d < n && TailFits(vs, d, size) && d != c ==>
         if d < c then LessCost(vs[c], vs[d], size) else !LessCost(vs[d], vs[c], size)
  }

  /** Signed slack below the high-water mark: negative for growth, positive for waste. */
  function Reuse(v: View, size: nat): int
    requires v.blocks != []
  {
    v.maxSize - Tail(v).offset - size
  }

  /** The comparison the search makes on signed slack orders the blocks by cost. */
  lemma ReuseIsCost(v: View, w: View, size: nat)
    requires v.blocks != [] && w.blocks != []
    ensures LessCost(v, w, size) <==> (Reuse(w, size) < 0 && Reuse(v, size) > Reuse(w, size))
                                      || 0 <= Reuse(v, size) < Reuse(w, size)
  {
  }

  ghost predicate NoInterior(vs: seq<View>, size: nat) {
    forall c: nat, i: nat :: !FitsInterior(vs, c, i, size)
  }

  ghost predicate NoTail(vs: seq<View>, size: nat) {
    forall c: nat :: !TailFits(vs, c, size)
  }

  /** The block that serves the request, as (chunk, index), or none. */
  ghost predicate Chosen(vs: seq<View>, c: nat, i: nat, size: nat) {
    if NoInterior(vs, size)
    then BestTail(vs, c, size) && i == |vs[c].blocks| - 1
    else BestInterior(vs, c, i, size)
  }

  /** The choice is determined by the state. */
  lemma ChosenUnique(vs: seq<View>, c: nat, i: nat, d: nat, k: nat, size: nat)
    requires Chosen(vs, c, i, size) && Chosen(vs, d, k, size)
    ensures c == d && i == k
  {
  }

  ghost predicate ChunkOk(k: Chunk, alignment: nat)
    reads k, k.freeBlocks
  {
    && k.Valid()
    && k.capacity <= SIZE_MAX / 2
    && (forall i :: 0 <= i < k.nFreeBlocks ==> Multiple(k.Blocks()[i].offset, alignment))
    && (forall o :: o in k.live ==> Multiple(o, alignment) && Multiple(k.live[o], alignment))
  }

  class DynTallocr {
    const alignment: nat
    const maxChunkSize: nat
    var chunks: seq<Chunk>
    ghost var views: seq<View>
    ghost var Repr: set<object>

    ghost predicate Valid()
      reads this, Repr
      ensures Valid() ==> this in Repr
    {
      && this in Repr
      && alignment > 0 && maxChunkSize <= SIZE_MAX / 2
      && |chunks| <= MAX_CHUNKS
      && (forall c :: 0 <= c < |chunks| ==> chunks[c] in Repr && chunks[c].freeBlocks in Repr)
      && (forall c, d ::
          0 <= c < d < |chunks| ==> chunks[c] != chunks[d] && chunks[c].freeBlocks != chunks[d].freeBlocks)
      && (forall c :: 0 <= c < |chunks| ==> ChunkOk(chunks[c], alignment))
      && |views| == |chunks|
      && (forall c :: 0 <= c < |chunks| ==> views[c] == ViewOf(chunks[c]))
      && (|chunks| == MAX_CHUNKS ==> chunks[MAX_CHUNKS - 1].capacity == SIZE_MAX / 2)
    }

    constructor (alignment: nat, maxBufferSize: nat)
      requires alignment > 0
      ensures Valid() && fresh(Repr)
      ensures this.alignment == alignment && views == [] && maxChunkSize == ChunkLimit(maxBufferSize)
    {
      this.alignment := alignment;
      maxChunkSize := if maxBufferSize < SIZE_MAX / 2 then maxBufferSize else SIZE_MAX / 2;
      chunks, views := [], [];
      Repr := {this};
    }

    /** Forgets every chunk, and with them every live region. */
    method Reset()
      requires Valid()
      modifies this
      ensures Valid() && Repr <= old(Repr)
      ensures views == []
    {
      chunks, views := [], [];
      Repr := {this};
    }

    /** The best interior block of one chunk, or -1. */
    method BestInChunk(c: nat, size: nat) returns (best: int)
      requires Valid() && c < |chunks|
      ensures -1 <= best < chunks[c].nFreeBlocks - 1 || best == -1
      ensures ChunkSeen(views, c, best, size)
    {
      var chunk := chunks[c];
      ghost var bs := chunk.Blocks();
      BlocksAreSmall(chunk, alignment);
      best := -1;
      var bestFitSize := SIZE_MAX;
      var i := 0;
      while i < chunk.nFreeBlocks - 1
        invariant 0 <= i && (i <= chunk.nFreeBlocks - 1 || (i == 0 && chunk.nFreeBlocks == 0))
        invariant -1 <= best < i
        invariant best == -1 ==> bestFitSize == SIZE_MAX && forall k :: 0 <= k < i ==> bs[k].size < size
        invariant best >= 0 ==> bs[best].size == bestFitSize >= size
        invariant best >= 0 ==> forall k :: 0 <= k < i && bs[k].size >= size ==>
                    if k <= best then bestFitSize <= bs[k].size else bestFitSize < bs[k].size
      {
        if chunk.freeBlocks[i].size >= size && chunk.freeBlocks[i].size <= bestFitSize {
          best := i;
          bestFitSize := chunk.freeBlocks[i].size;
        }
        i := i + 1;
      }
    }

    /** The search over the interior blocks of all chunks. */
    method FindInterior(size: nat) returns (c: int, i: nat)
      requires Valid()
      ensures InteriorsSeen(views, |views|, c, i, size)
    {
      c, i := -1, 0;
      ghost var vs := views;
      var d := 0;
      while d < |chunks|
        invariant d <= |chunks| == |vs|
        invariant InteriorsSeen(vs, d, c, i, size)
      {
        var best := BestInChunk(d, size);
        InteriorStep(vs, d, c, i, best, size);
        if best >= 0 {
          c, i := d, best;
        }
        d := d + 1;
      }
    }

    /** The search over the last blocks, which may raise a chunk's high-water mark. */
    method FindTail(size: nat) returns (c: int)
      requires Valid() && size <= SIZE_MAX / 2
      ensures c == -1 <==> NoTail(views, size)
      ensures c != -1 ==> c >= 0 && BestTail(views, c, size)
    {
      c := -1;
      var bestReuse := INT64_MIN;
      ghost var vs := views;
      var d := 0;
      while d < |chunks|
        invariant d <= |chunks| == |vs|
        invariant TailsSeen(vs, d, c, size)
        invariant bestReuse == if c == -1 then INT64_MIN else Reuse(vs[c], size)
      {
        TailStep(vs, d, c, size);
        var chunk := chunks[d];
        if chunk.nFreeBlocks > 0 {
          var block := chunk.freeBlocks[chunk.nFreeBlocks - 1];
          assert block == Tail(vs[d]);
          BlocksAreSmall(chunk, alignment);
          var reuseFactor := chunk.maxSize - block.offset - size;
          var betterReuse := bestReuse < 0 && reuseFactor > bestReuse;
          var betterFit := reuseFactor >= 0 && reuseFactor < bestReuse;
          if c >= 0 { ReuseIsCost(vs[d], vs[c], size); }
          if block.size >= size && (betterReuse || betterFit) {
            c := d;
            bestReuse := reuseFactor;
          }
        }
        d := d + 1;
      }
      if c >= 0 { assert TailFits(vs, c, size); }
    }

    /** Opens one more chunk, unless all sixteen are open. The last one is virtually endless. */
    method NewChunk(minSize: nat) returns (c: int)
      requires Valid() && 0 < minSize <= SIZE_MAX / 2
      modifies this`chunks, this`views, this`Repr
      ensures Valid() && fresh(Repr - old(Repr)) && old(Repr) <= Repr
      ensures c == (if |old(chunks)| == MAX_CHUNKS then -1 else |old(chunks)|)
      ensures c == -1 ==> views == old(views)
      ensures c != -1 ==> views == old(views) + [View([Block(0, NewCapacity(c, minSize, maxChunkSize))], 0, map[])]
    {
      if |chunks| >= MAX_CHUNKS { return -1; }
      var size := if minSize > maxChunkSize then minSize else maxChunkSize;
      if |chunks| == MAX_CHUNKS - 1 {
        size := SIZE_MAX / 2;
      }
      var chunk := new Chunk(size);
      FreshChunkOk(chunk, alignment);
      Append(chunk);
      c := |chunks| - 1;
    }

    method Append(chunk: Chunk)
      requires Valid() && |chunks| < MAX_CHUNKS && chunk !in Repr && chunk.freeBlocks !in Repr
      requires ChunkOk(chunk, alignment) && (|chunks| == MAX_CHUNKS - 1 ==> chunk.capacity == SIZE_MAX / 2)
      modifies this`chunks, this`views, this`Repr
      ensures Valid() && Repr == old(Repr) + {chunk, chunk.freeBlocks}
      ensures chunks == old(chunks) + [chunk] && views == old(views) + [ViewOf(chunk)]
    {
      chunks := chunks + [chunk];
      views := views + [ViewOf(chunk)];
      Repr := Repr + {chunk, chunk.freeBlocks};
      forall d | 0 <= d < |chunks| ensures views[d] == ViewOf(chunks[d]) && ChunkOk(chunks[d], alignment) {
        assert d < |old(chunks)| ==> chunks[d] == old(chunks)[d];
      }
    }

    /** Serves a request from block `i` of chunk `c`. */
    method TakeFrom(c: nat, i: nat, size: nat) returns (addr: Addr)
      requires Valid() && c < |chunks| && i < chunks[c].nFreeBlocks
      requires 0 < size <= chunks[c].Blocks()[i].size && Multiple(size, alignment)
      modifies Repr
      ensures Valid() && Repr == old(Repr)
      ensures addr == Addr(c, old(views)[c].blocks[i].offset)
      ensures addr.offset !in old(views)[c].live
      ensures views == old(views)[c := ServedView(old(views)[c], i, size)]
    {
      var chunk := chunks[c];
      ghost var before := ViewOf(chunk);
      var offset := chunk.Take(i, size);
      addr := Addr(c, offset);
      views := views[c := ViewOf(chunk)];
      assert ViewOf(chunk) == ServedView(before, i, size);
      ServedChunkOk(chunk, before, i, size, alignment);
      forall d | 0 <= d < |chunks| && d != c ensures views[d] == ViewOf(chunks[d]) && ChunkOk(chunks[d], alignment) {
        assert chunks[d] != chunk && chunks[d].freeBlocks != chunk.freeBlocks;
      }
    }

    /** The free block that serves the request, or -1. */
    method Pick(size: nat) returns (c: int, i: nat)
      requires Valid() && 0 < size <= SIZE_MAX / 2
      ensures c == -1 <==> NoInterior(views, size) && NoTail(views, size)
      ensures c != -1 ==> c >= 0 && Chosen(views, c, i, size)
    {
      c, i := FindInterior(size);
      InteriorsSeenAll(views, c, i, size);
      if c == -1 {
        c := FindTail(size);
        if c != -1 { i := chunks[c].nFreeBlocks - 1; }
      }
    }

    /** Plans `size` bytes, rounded up to the alignment. None stands for the abort when no block
        fits and no chunk can be opened. */
    method Alloc(size: nat) returns (r: Option<Addr>)
      requires Valid() && size > 0 && AlignUp(size, alignment) <= SIZE_MAX / 2
      modifies Repr
      ensures Valid() && fresh(Repr - old(Repr)) && old(Repr) <= Repr
      ensures r.None? <==> OutOfMemory(old(views), AlignUp(size, alignment))
      ensures r.None? ==> views == old(views)
      ensures r.Some? ==> Served(old(views), views, r.value, AlignUp(size, alignment), maxChunkSize)
      ensures r.Some? ==> Multiple(r.value.offset, alignment)
      ensures r.Some? && r.value.chunk < |old(views)| ==> r.value.offset !in old(views)[r.value.chunk].live
    {
      AlignUpIsLeast(size, alignment);
      var sz := AlignUp(size, alignment);
      var c, i := Pick(sz);
      if c == -1 {
        c := NewChunk(sz);
        i := 0;
        if c == -1 { return None; }
      } else {
        ChosenFits(views, c, i, sz);
      }
      StartsAreMultiples(c, i);
      var addr := TakeFrom(c, i, sz);
      r := Some(addr);
    }

    lemma StartsAreMultiples(c: nat, i: nat)
      requires Valid() && c < |chunks| && i < |views[c].blocks|
      ensures Multiple(views[c].blocks[i].offset, alignment)
    {
    }

    /** Gives back the upper part `[addr, addr + size)` of the live region that starts at `o` in the
        same chunk (all of it when `o == addr.offset`). Fails only when 256 free blocks are in use
        and the region touches none of them. */
    method FreeBytes(addr: Addr, size: nat, ghost o: nat) returns (ok: bool)
      requires Valid() && size > 0
      requires addr.chunk < |views| && o in views[addr.chunk].live && o <= addr.offset
      requires addr.offset + AlignUp(size, alignment) == o + views[addr.chunk].live[o]
      modifies Repr
      ensures Valid() && Repr == old(Repr)
      ensures !ok ==> views == old(views)
      ensures !ok <==> |old(views)[addr.chunk].blocks| == MAX_FREE_BLOCKS
                       && Isolated(old(views)[addr.chunk].blocks, addr.offset, AlignUp(size, alignment))
      ensures ok ==> ReleasedIn(old(views), views, addr, AlignUp(size, alignment), o)
    {
      AlignUpIsLeast(size, alignment);
      ok := ReleaseFrom(addr, AlignUp(size, alignment), o);
    }

    method ReleaseFrom(addr: Addr, size: nat, ghost o: nat) returns (ok: bool)
      requires Valid() && size > 0 && Multiple(size, alignment)
      requires addr.chunk < |views| && o in views[addr.chunk].live && o <= addr.offset
      requires addr.offset + size == o + views[addr.chunk].live[o]
      modifies Repr
      ensures Valid() && Repr == old(Repr)
      ensures !ok ==> views == old(views)
      ensures !ok <==> |old(views)[addr.chunk].blocks| == MAX_FREE_BLOCKS
                       && Isolated(old(views)[addr.chunk].blocks, addr.offset, size)
      ensures ok ==> ReleasedIn(old(views), views, addr, size, o)
    {
      var chunk := chunks[addr.chunk];
      ghost var before := ViewOf(chunk);
      assert before == views[addr.chunk];
      ok := chunk.FreeBytes(addr.offset, size, o);
      views := views[addr.chunk := ViewOf(chunk)];
      if ok {
        ReleasedChunkOk(chunk, before, addr.offset, size, o, alignment);
      }
      forall d | 0 <= d < |chunks| && d != addr.chunk
        ensures views[d] == ViewOf(chunks[d]) && ChunkOk(chunks[d], alignment)
      {
        assert chunks[d] != chunk && chunks[d].freeBlocks != chunk.freeBlocks;
      }
    }
  }

  function ChunkLimit(maxBufferSize: nat): nat {
    if maxBufferSize < SIZE_MAX / 2 then maxBufferSize else SIZE_MAX / 2
  }

  ghost predicate OutOfMemory(vs: seq<View>, size: nat) {
    |vs| == MAX_CHUNKS && NoInterior(vs, size) && NoTail(vs, size)
  }

  /** How a request for `size` aligned bytes is served: from the chosen block if some block fits,
      otherwise from the start of a new chunk. Address and new state are determined. */
  ghost predicate Served(vs: seq<View>, vs': seq<View>, addr: Addr, size: nat, maxChunkSize: nat) {
    if NoInterior(vs, size) && NoTail(vs, size)
    then |vs| < MAX_CHUNKS && size <= SIZE_MAX / 2 && addr == Addr(|vs|, 0)
         && vs' == vs + [ServedView(View([Block(0, NewCapacity(|vs|, size, maxChunkSize))], 0, map[]), 0, size)]
    else exists i: nat :: Chosen(vs, addr.chunk, i, size) && addr.offset == vs[addr.chunk].blocks[i].offset
           && vs' == vs[addr.chunk := ServedView(vs[addr.chunk], i, size)]
  }

  /** How the upper part of the live region at `o` is given back. */
  ghost predicate ReleasedIn(vs: seq<View>, vs': seq<View>, addr: Addr, size: nat, o: nat) {
    && |vs'| == |vs| && addr.chunk < |vs|
    && (forall c :: 0 <= c < |vs| && c != addr.chunk ==> vs'[c] == vs[c])
    && vs'[addr.chunk].maxSize == vs[addr.chunk].maxSize
    && Released(vs[addr.chunk].blocks, vs'[addr.chunk].blocks, addr.offset, size)
    && o in vs[addr.chunk].live && o <= addr.offset
    && vs'[addr.chunk].live == Shrink(vs[addr.chunk].live, o, addr.offset)
  }

  lemma ReleasedChunkOk(k: Chunk, before: View, offset: nat, size: nat, o: nat, alignment: nat)
    requires k.Valid() && k.capacity <= SIZE_MAX / 2
    requires Canonical(before.blocks) && size > 0
    requires o in before.live && o <= offset && offset + size == o + before.live[o] && Multiple(size, alignment)
    requires Released(before.blocks, k.Blocks(), offset, size) && k.live == Shrink(before.live, o, offset)
    requires forall j :: 0 <= j < |before.blocks| ==> Multiple(before.blocks[j].offset, alignment)
    requires forall p :: p in before.live ==> Multiple(p, alignment) && Multiple(before.live[p], alignment)
    ensures ChunkOk(k, alignment)
  {
    MultipleSum(o, before.live[o], alignment);
    MultipleSum(o + before.live[o], size, alignment);
    MultipleSum(offset, o, alignment);
    forall j | 0 <= j < k.nFreeBlocks ensures Multiple(k.Blocks()[j].offset, alignment) {
      ReleasedStarts(before.blocks, k.Blocks(), offset, size, j);
    }
  }

  /** A block of the new list starts where an old block or the released region starts. */
  lemma ReleasedStarts(bs: seq<Block>, bs': seq<Block>, offset: nat, size: nat, j: nat)
    requires Canonical(bs) && Released(bs, bs', offset, size) && j < |bs'| && size > 0
    ensures bs'[j].offset == offset || exists k :: 0 <= k < |bs| && bs[k].offset == bs'[j].offset
  {
    var x := bs'[j].offset;
    assert Covers(bs', x);
    if x != offset {
      if x > 0 { assert !Covers(bs', x - 1); assert !Covers(bs, x - 1); }
      var k :| 0 <= k < |bs| && bs[k].offset <= x < bs[k].End();
      assert bs[k].offset == x;
    }
  }

  lemma FreshChunkOk(k: Chunk, alignment: nat)
    requires k.Valid() && k.capacity <= SIZE_MAX / 2 && k.live == map[] && k.Blocks() == [Block(0, k.capacity)]
    ensures ChunkOk(k, alignment)
  {
    assert 0 == 0 * alignment;
  }

  lemma ServedChunkOk(k: Chunk, before: View, i: nat, size: nat, alignment: nat)
    requires k.Valid() && k.capacity <= SIZE_MAX / 2
    requires i < |before.blocks| && size <= before.blocks[i].size && Multiple(size, alignment)
    requires ViewOf(k) == ServedView(before, i, size)
    requires forall j :: 0 <= j < |before.blocks| ==> Multiple(before.blocks[j].offset, alignment)
    requires forall o :: o in before.live ==> Multiple(o, alignment) && Multiple(before.live[o], alignment)
    ensures ChunkOk(k, alignment)
  {
    CarveKeepsMultiples(before.blocks, i, size, alignment);
  }

  /** The size a new chunk is opened with. */
  function NewCapacity(c: nat, minSize: nat, maxChunkSize: nat): nat {
    if c == MAX_CHUNKS - 1 then SIZE_MAX / 2 else if minSize > maxChunkSize then minSize else maxChunkSize
  }

  /** A chunk after block `i` has served a request. */
  function ServedView(v: View, i: nat, size: nat): View
    requires i < |v.blocks| && size <= v.blocks[i].size
  {
    View(Carve(v.blocks, i, size),
         if v.maxSize < v.blocks[i].offset + size then v.blocks[i].offset + size else v.maxSize,
         v.live[v.blocks[i].offset := size])
  }

  lemma CarveKeepsMultiples(bs: seq<Block>, i: nat, size: nat, alignment: nat)
    requires i < |bs| && size <= bs[i].size && Multiple(size, alignment)
    requires forall k :: 0 <= k < |bs| ==> Multiple(bs[k].offset, alignment)
    ensures forall k :: 0 <= k < |Carve(bs, i, size)| ==> Multiple(Carve(bs, i, size)[k].offset, alignment)
  {
    MultipleSum(bs[i].offset, size, alignment);
  }

  /** The best interior block of chunk `c`, or a negative number. */
  ghost predicate ChunkSeen(vs: seq<View>, c: nat, best: int, size: nat) {
    if best < 0 then forall k: nat :: !FitsInterior(vs, c, k, size)
    else FitsInterior(vs, c, best, size) && BestOfChunk(vs, c, best, size)
  }

  /** The best interior block among the first `n` chunks, or -1. */
  ghost predicate InteriorsSeen(vs: seq<View>, n: nat, c: int, i: nat, size: nat) {
    if c < 0 then c == -1 && forall e: nat, k: nat :: e < n ==> !FitsInterior(vs, e, k, size)
    else BestInteriorBelow(vs, n, c, i, size)
  }

  /** The best last block among the first `n` chunks, or -1. */
  ghost predicate TailsSeen(vs: seq<View>, n: nat, c: int, size: nat) {
    if c < 0 then c == -1 && forall e: nat :: e < n ==> !TailFits(vs, e, size)
    else BestTailBelow(vs, n, c, size)
  }

  lemma InteriorsSeenAll(vs: seq<View>, c: int, i: nat, size: nat)
    requires InteriorsSeen(vs, |vs|, c, i, size)
    ensures c == -1 <==> NoInterior(vs, size)
    ensures c != -1 ==> c >= 0 && BestInterior(vs, c, i, size)
  {
    if c >= 0 { assert FitsInterior(vs, c, i, size); }
  }

  lemma ChosenFits(vs: seq<View>, c: nat, i: nat, size: nat)
    requires Chosen(vs, c, i, size)
    ensures c < |vs| && i < |vs[c].blocks| && size <= vs[c].blocks[i].size
    ensures !(NoInterior(vs, size) && NoTail(vs, size))
  {
    if NoInterior(vs, size) { assert TailFits(vs, c, size); } else { assert FitsInterior(vs, c, i, size); }
  }

  lemma InteriorStep(vs: seq<View>, n: nat, c: int, i: nat, best: int, size: nat)
    requires n < |vs| && InteriorsSeen(vs, n, c, i, size)
    requires ChunkSeen(vs, n, best, size)
    ensures if best < 0 then InteriorsSeen(vs, n + 1, c, i, size) else InteriorsSeen(vs, n + 1, n, best, size)
  {
  }

  lemma TailStep(vs: seq<View>, n: nat, c: int, size: nat)
    requires n < |vs| && TailsSeen(vs, n, c, size)
    ensures if TailFits(vs, n, size) && (c < 0 || LessCost(vs[n], vs[c], size))
            then TailsSeen(vs, n + 1, n, size) else TailsSeen(vs, n + 1, c, size)
  {
  }

  lemma BlocksAreSmall(k: Chunk, alignment: nat)
    requires ChunkOk(k, alignment)
    ensures forall i :: 0 <= i < k.nFreeBlocks ==> k.Blocks()[i].End() <= k.capacity <= SIZE_MAX / 2
  {
    forall i | 0 <= i < k.nFreeBlocks ensures k.Blocks()[i].End() <= k.capacity {
      assert Covers(k.Blocks(), k.Blocks()[i].End() - 1);
    }
  }
}
