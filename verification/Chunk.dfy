/** One chunk of the planning allocator: its free list kept in a fixed array, and the regions
    currently handed out from it. */
module Chunks {
  import opened FreeList

  const MAX_FREE_BLOCKS := 256

  // ---- free blocks and live regions tile the chunk

  ghost predicate InLive(live: map<nat, nat>, x: nat) {
    exists o :: o in live && o <= x < o + live[o]
  }

  /** Every byte below `capacity` is either free or inside exactly one live region, never both. */
  ghost predicate Tiled(bs: seq<Block>, live: map<nat, nat>, capacity: nat) {
    && Canonical(bs)
    && (forall o :: o in live ==> live[o] > 0)
    && (forall o, p :: o in live && p in live && o < p ==> o + live[o] <= p)
    && (forall x: nat :: x < capacity ==> (Covers(bs, x) <==> !InLive(live, x)))
    && (forall x: nat :: capacity <= x ==> !Covers(bs, x) && !InLive(live, x))
  }

  /** The live region at `o` keeps only its part below `offset`. */
  ghost function Shrink(live: map<nat, nat>, o: nat, offset: nat): map<nat, nat>
    requires o in live && o <= offset
  {
    if o == offset then live - {o} else live[o := offset - o]
  }

  lemma TakeTiles(bs: seq<Block>, bs': seq<Block>, live: map<nat, nat>, capacity: nat, offset: nat, size: nat)
    requires Tiled(bs, live, capacity) && size > 0
    requires forall x: nat :: offset <= x < offset + size ==> Covers(bs, x)
    requires Taken(bs, bs', offset, size)
    ensures offset !in live && Tiled(bs', live[offset := size], capacity)
    ensures offset + size <= capacity
  {
    var live' := live[offset := size];
    assert Covers(bs, offset) && Covers(bs, offset + size - 1);
    assert !InLive(live, offset);
    assert offset !in live;
    forall o | o in live
      ensures o < offset ==> o + live[o] <= offset
      ensures offset < o ==> offset + size <= o
    {
      assert InLive(live, o);
    }
    forall x: nat ensures InLive(live', x) <==> InLive(live, x) || offset <= x < offset + size {
      if InLive(live, x) {
        var o :| o in live && o <= x < o + live[o];
        assert live'[o] == live[o];
      }
      if offset <= x < offset + size { assert live'[offset] == size; }
    }
  }

  lemma ReleaseTiles(bs: seq<Block>, bs': seq<Block>, live: map<nat, nat>, capacity: nat, o: nat, offset: nat,
                     size: nat)
    requires Tiled(bs, live, capacity) && size > 0
    requires o in live && o <= offset && offset + size == o + live[o]
    requires Released(bs, bs', offset, size)
    ensures Tiled(bs', Shrink(live, o, offset), capacity)
  {
    var live' := Shrink(live, o, offset);
    forall x: nat ensures InLive(live', x) <==> InLive(live, x) && !(offset <= x < offset + size) {
      ShrinkBytes(live, o, offset, size, x);
    }
    assert InLive(live, offset + size - 1);
  }

  lemma ShrinkBytes(live: map<nat, nat>, o: nat, offset: nat, size: nat, x: nat)
    requires forall o, p :: o in live && p in live && o < p ==> o + live[o] <= p
    requires o in live && o <= offset && offset + size == o + live[o]
    ensures InLive(Shrink(live, o, offset), x) <==> InLive(live, x) && !(offset <= x < offset + size)
  {
    var live' := Shrink(live, o, offset);
    if InLive(live, x) && !(offset <= x < offset + size) {
      var p :| p in live && p <= x < p + live[p];
      assert p in live' && p <= x < p + live'[p];
    }
    if InLive(live', x) {
      var p :| p in live' && p <= x < p + live'[p];
      assert p in live && p <= x < p + live[p];
    }
  }

  /** A live region is clear of free blocks, block by block. */
  lemma LiveIsClear(bs: seq<Block>, live: map<nat, nat>, capacity: nat, o: nat, offset: nat, size: nat)
    requires Tiled(bs, live, capacity) && size > 0
    requires o in live && o <= offset && offset + size <= o + live[o]
    ensures Clear(bs, offset, size)
    ensures offset + size <= capacity
  {
    forall x: nat | offset <= x < offset + size ensures InLive(live, x) && !Covers(bs, x) && x < capacity {
      assert o <= x < o + live[o];
    }
    forall i | 0 <= i < |bs| ensures bs[i].End() <= offset || offset + size <= bs[i].offset {
      var x := if offset <= bs[i].offset then bs[i].offset else offset;
      if bs[i].offset <= x < bs[i].End() { assert Covers(bs, x); }
    }
    assert InLive(live, offset + size - 1);
  }

  class Chunk {
    const freeBlocks: array<Block>
    var nFreeBlocks: nat
    var maxSize: nat
    ghost const capacity: nat
    ghost var live: map<nat, nat>

    ghost predicate Valid()
      reads this, freeBlocks
    {
      && freeBlocks.Length == MAX_FREE_BLOCKS + 1
      && nFreeBlocks <= MAX_FREE_BLOCKS
      && Tiled(Blocks(), live, capacity)
      && (forall o :: o in live ==> o + live[o] <= maxSize)
      && maxSize <= capacity
    }

    ghost function Blocks(): seq<Block>
      reads this, freeBlocks
      requires nFreeBlocks <= freeBlocks.Length
    {
      freeBlocks[..nFreeBlocks]
    }

    /** A fresh chunk is one free block; nothing has been handed out. */
    constructor (size: nat)
      requires size > 0
      ensures Valid() && fresh(freeBlocks)
      ensures capacity == size && maxSize == 0 && live == map[]
      ensures Blocks() == [Block(0, size)]
    {
      freeBlocks := new Block[MAX_FREE_BLOCKS + 1](_ => Block(0, 0));
      nFreeBlocks := 1;
      maxSize := 0;
      capacity := size;
      live := map[];
      new;
      freeBlocks[0] := Block(0, size);
      assert Blocks() == [Block(0, size)];
      assert Blocks()[0] == Block(0, size);
    }

    /** Shifts the tail up by one and stores the block at its place in address order; fails when
        the array is full. */
    method InsertBlock(offset: nat, size: nat) returns (ok: bool, ghost pos: nat)
      requires freeBlocks.Length == MAX_FREE_BLOCKS + 1 && nFreeBlocks <= MAX_FREE_BLOCKS
      modifies this`nFreeBlocks, freeBlocks
      ensures ok <==> old(nFreeBlocks) < MAX_FREE_BLOCKS
      ensures !ok ==> nFreeBlocks == old(nFreeBlocks) && Blocks() == old(Blocks())
      ensures ok ==> nFreeBlocks == old(nFreeBlocks) + 1 && pos <= old(nFreeBlocks)
      ensures ok ==> Blocks() == InsertAt(old(Blocks()), pos, Block(offset, size))
      ensures ok ==> forall k :: 0 <= k < pos ==> old(Blocks())[k].offset < offset
      ensures ok ==> pos < old(nFreeBlocks) ==> offset <= old(Blocks())[pos].offset
    {
      pos := 0;
      if nFreeBlocks >= MAX_FREE_BLOCKS { return false, 0; }
      var insertPos := 0;
      while insertPos < nFreeBlocks && freeBlocks[insertPos].offset < offset
        invariant insertPos <= nFreeBlocks
        invariant forall k :: 0 <= k < insertPos ==> freeBlocks[k].offset < offset
      {
        insertPos := insertPos + 1;
      }
      pos := insertPos;
      var i := nFreeBlocks;
      while i > insertPos
        invariant insertPos <= i <= nFreeBlocks == old(nFreeBlocks)
        invariant forall k :: 0 <= k < i ==> freeBlocks[k] == old(freeBlocks[k])
        invariant forall k :: i < k <= nFreeBlocks ==> freeBlocks[k] == old(freeBlocks[k - 1])
      {
        freeBlocks[i] := freeBlocks[i - 1];
        i := i - 1;
      }
      freeBlocks[insertPos] := Block(offset, size);
      nFreeBlocks := nFreeBlocks + 1;
      ok := true;
      assert Blocks() == InsertAt(old(Blocks()), pos, Block(offset, size));
    }

    /** Closes the gap left by the block at `idx`. */
    method RemoveBlock(idx: nat)
      requires freeBlocks.Length == MAX_FREE_BLOCKS + 1 && idx < nFreeBlocks <= MAX_FREE_BLOCKS
      modifies this`nFreeBlocks, freeBlocks
      ensures nFreeBlocks == old(nFreeBlocks) - 1
      ensures Blocks() == RemoveAt(old(Blocks()), idx)
    {
      var i := idx;
      while i < nFreeBlocks
        invariant idx <= i <= nFreeBlocks == old(nFreeBlocks)
        invariant forall k :: 0 <= k < idx ==> freeBlocks[k] == old(freeBlocks[k])
        invariant forall k :: idx <= k < i ==> freeBlocks[k] == old(freeBlocks[k + 1])
        invariant forall k :: i <= k < freeBlocks.Length ==> freeBlocks[k] == old(freeBlocks[k])
      {
        freeBlocks[i] := freeBlocks[i + 1];
        i := i + 1;
      }
      nFreeBlocks := nFreeBlocks - 1;
      assert Blocks() == RemoveAt(old(Blocks()), idx);
    }

    /** Cuts `size` bytes off the front of block `i`, dropping the block when it is used up. */
    method CutFront(i: nat, size: nat) returns (offset: nat)
      requires freeBlocks.Length == MAX_FREE_BLOCKS + 1 && i < nFreeBlocks <= MAX_FREE_BLOCKS
      requires size <= Blocks()[i].size
      modifies this`nFreeBlocks, freeBlocks
      ensures nFreeBlocks <= MAX_FREE_BLOCKS
      ensures offset == old(Blocks()[i].offset)
      ensures Blocks() == Carve(old(Blocks()), i, size)
    {
      ghost var before := Blocks();
      var block := freeBlocks[i];
      offset := block.offset;
      freeBlocks[i] := Block(block.offset + size, block.size - size);
      assert Blocks() == before[i := Block(block.offset + size, block.size - size)];
      if freeBlocks[i].size == 0 {
        RemoveBlock(i);
        assert Blocks() == RemoveAt(before, i);
      }
    }

    /** Hands out the first `size` bytes of free block `i`. */
    method Take(i: nat, size: nat) returns (offset: nat)
      requires Valid() && i < nFreeBlocks && 0 < size <= Blocks()[i].size
      modifies this`nFreeBlocks, this`maxSize, this`live, freeBlocks
      ensures Valid()
      ensures offset == old(Blocks()[i].offset) && offset !in old(live)
      ensures live == old(live)[offset := size]
      ensures Blocks() == Carve(old(Blocks()), i, size)
      ensures Taken(old(Blocks()), Blocks(), offset, size)
      ensures maxSize == if old(maxSize) < offset + size then offset + size else old(maxSize)
    {
      ghost var before := Blocks();
      CarveTakes(before, i, size);
      offset := CutFront(i, size);
      TakeTiles(before, Blocks(), live, capacity, offset, size);
      maxSize := if maxSize < offset + size then offset + size else maxSize;
      live := live[offset := size];
    }

    /** Gives `[offset, offset + size)` back, merging it with the free neighbours it touches.
        `o` is the live region whose upper part is returned. Fails, with nothing changed, only
        when the region touches no free block and the array is full. */
    method FreeBytes(offset: nat, size: nat, ghost o: nat) returns (ok: bool)
      requires Valid() && size > 0
      requires o in live && o <= offset && offset + size == o + live[o]
      modifies this`nFreeBlocks, this`live, freeBlocks
      ensures Valid()
      ensures ok ==> Released(old(Blocks()), Blocks(), offset, size)
      ensures ok ==> live == Shrink(old(live), o, offset)
      ensures !ok ==> Blocks() == old(Blocks()) && live == old(live)
      ensures !ok <==> old(nFreeBlocks) == MAX_FREE_BLOCKS && old(Isolated(Blocks(), offset, size))
    {
      ghost var before := Blocks();
      LiveIsClear(before, live, capacity, o, offset, size);
      ok := MergeOrInsert(offset, size);
      if ok {
        ReleaseTiles(before, Blocks(), live, capacity, o, offset, size);
        live := Shrink(live, o, offset);
      }
    }

    /** The search for a touching neighbour, and the insertion when there is none. The source also
        looks for a lower neighbour of a block it has just grown downwards: that neighbour would
        have been found one iteration earlier, so the branch is dead. */
    method MergeOrInsert(offset: nat, size: nat) returns (ok: bool)
      requires freeBlocks.Length == MAX_FREE_BLOCKS + 1 && nFreeBlocks <= MAX_FREE_BLOCKS
      requires Canonical(Blocks()) && Clear(Blocks(), offset, size) && size > 0
      modifies this`nFreeBlocks, freeBlocks
      ensures nFreeBlocks <= MAX_FREE_BLOCKS
      ensures ok ==> Released(old(Blocks()), Blocks(), offset, size)
      ensures !ok ==> Blocks() == old(Blocks())
      ensures !ok <==> old(nFreeBlocks) == MAX_FREE_BLOCKS && old(Isolated(Blocks(), offset, size))
    {
      ghost var before := Blocks();
      var i := 0;
      while i < nFreeBlocks
        invariant i <= nFreeBlocks == |before| && Blocks() == before
        invariant forall k :: 0 <= k < i ==> before[k].End() != offset && offset + size != before[k].offset
      {
        if freeBlocks[i].offset + freeBlocks[i].size == offset {
          MergeUp(i, size);
          return true;
        }
        if offset + size == freeBlocks[i].offset {
          if i > 0 && freeBlocks[i - 1].offset + freeBlocks[i - 1].size == offset {
            assert false;
          }
          assert i > 0 ==> before[i - 1].End() < offset by {
            if i > 0 { assert before[i - 1].End() < before[i].offset; }
          }
          GrowDown(before, i, offset, size);
          freeBlocks[i] := Block(offset, freeBlocks[i].size + size);
          assert Blocks() == before[i := Block(offset, before[i].size + size)];
          return true;
        }
        i := i + 1;
      }
      ghost var pos;
      ok, pos := InsertBlock(offset, size);
      if ok {
        IsolatedPosition(before, pos, offset, size);
        InsertReleases(before, pos, offset, size);
      }
    }

    /** Block `i` swallows the `size` bytes above it, and its successor if they then touch. */
    method MergeUp(i: nat, size: nat)
      requires freeBlocks.Length == MAX_FREE_BLOCKS + 1 && i < nFreeBlocks <= MAX_FREE_BLOCKS
      requires Canonical(Blocks()) && size > 0 && Clear(Blocks(), Blocks()[i].End(), size)
      modifies this`nFreeBlocks, freeBlocks
      ensures nFreeBlocks <= MAX_FREE_BLOCKS
      ensures Released(old(Blocks()), Blocks(), old(Blocks()[i].End()), size)
    {
      ghost var before := Blocks();
      if i + 1 < |before| { assert before[i].End() < before[i + 1].offset; }
      if i + 1 < |before| && before[i].End() + size == before[i + 1].offset {
        GrowUpAndJoin(before, i, size);
      } else {
        GrowUp(before, i, size);
      }
      freeBlocks[i] := Block(freeBlocks[i].offset, freeBlocks[i].size + size);
      assert Blocks() == before[i := Block(before[i].offset, before[i].size + size)];
      if i < nFreeBlocks - 1 && freeBlocks[i].offset + freeBlocks[i].size == freeBlocks[i + 1].offset {
        freeBlocks[i] := Block(freeBlocks[i].offset, freeBlocks[i].size + freeBlocks[i + 1].size);
        assert Blocks() == before[i := Block(before[i].offset, before[i].size + size + before[i + 1].size)];
        RemoveBlock(i + 1);
      }
    }
  }

  /** The region touches no free block. */
  ghost predicate Isolated(bs: seq<Block>, offset: nat, size: nat) {
    forall k :: 0 <= k < |bs| ==> bs[k].End() != offset && offset + size != bs[k].offset
  }

  lemma IsolatedPosition(bs: seq<Block>, pos: nat, offset: nat, size: nat)
    requires Canonical(bs) && pos <= |bs| && size > 0
    requires Clear(bs, offset, size) && Isolated(bs, offset, size)
    requires forall k :: 0 <= k < pos ==> bs[k].offset < offset
    requires pos < |bs| ==> offset <= bs[pos].offset
    ensures forall k :: 0 <= k < pos ==> bs[k].End() < offset
    ensures forall k :: pos <= k < |bs| ==> offset + size < bs[k].offset
  {
    forall k | pos <= k < |bs| ensures offset + size < bs[k].offset {
      assert offset <= bs[k].offset by {
        if k > pos { assert bs[pos].End() < bs[k].offset; }
      }
    }
  }
}
