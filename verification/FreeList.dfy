/** The free space of one chunk: an address-ordered list of blocks in which no two blocks touch.
    Such a list is determined by the bytes it covers, so stating which bytes an operation frees
    or takes states the whole resulting list. */
module FreeList {

  datatype Block = Block(offset: nat, size: nat) {
    function End(): nat { offset + size }
  }

  ghost predicate Canonical(bs: seq<Block>) {
    && (forall i :: 0 <= i < |bs| ==> bs[i].size > 0)
    && (forall i, j :: 0 <= i < j < |bs| ==> bs[i].End() < bs[j].offset)
  }

  ghost predicate Covers(bs: seq<Block>, x: nat) {
    exists i :: 0 <= i < |bs| && bs[i].offset <= x < bs[i].End()
  }

  ghost predicate SameBytes(a: seq<Block>, b: seq<Block>) {
    forall x: nat :: Covers(a, x) <==> Covers(b, x)
  }

  /** No byte of `[offset, offset + size)` is free. */
  ghost predicate Clear(bs: seq<Block>, offset: nat, size: nat) {
    forall i :: 0 <= i < |bs| ==> bs[i].End() <= offset || offset + size <= bs[i].offset
  }

  /** `after` is the canonical list whose free bytes are those of `before` plus the given region. */
  ghost predicate Released(before: seq<Block>, after: seq<Block>, offset: nat, size: nat) {
    && Canonical(after)
    && forall x: nat :: Covers(after, x) <==> Covers(before, x) || offset <= x < offset + size
  }

  /** `after` is the canonical list whose free bytes are those of `before` minus the given region. */
  ghost predicate Taken(before: seq<Block>, after: seq<Block>, offset: nat, size: nat) {
    && Canonical(after)
    && forall x: nat :: Covers(after, x) <==> Covers(before, x) && !(offset <= x < offset + size)
  }

  /** Two canonical lists that cover the same bytes are the same list. */
  lemma {:induction false} CanonicalUnique(a: seq<Block>, b: seq<Block>)
    requires Canonical(a) && Canonical(b) && SameBytes(a, b)
    ensures a == b
  {
    if a == [] {
      if b != [] { FirstIsFree(b); }
    } else if b == [] {
      FirstIsFree(a);
    } else {
      HeadsAgree(a, b);
      HeadsAgree(b, a);
      forall x: nat ensures Covers(a[1..], x) <==> Covers(b[1..], x) {
        CoversTail(a, x);
        CoversTail(b, x);
      }
      CanonicalUnique(a[1..], b[1..]);
      assert a == [a[0]] + a[1..] && b == [b[0]] + b[1..];
    }
  }

  lemma FirstIsFree(a: seq<Block>)
    requires Canonical(a) && a != []
    ensures Covers(a, a[0].offset)
  {
    assert a[0].offset <= a[0].offset < a[0].End();
  }

  lemma HeadsAgree(a: seq<Block>, b: seq<Block>)
    requires Canonical(a) && Canonical(b) && SameBytes(a, b)
    requires a != [] && b != []
    ensures b[0].offset <= a[0].offset
    ensures a[0].offset == b[0].offset ==> a[0].End() <= b[0].End()
  {
    FirstIsFree(a);
    assert !Covers(b, b[0].End());
    assert !Covers(a, b[0].End());
  }

  lemma CoversTail(a: seq<Block>, x: nat)
    requires Canonical(a) && a != []
    ensures Covers(a[1..], x) <==> Covers(a, x) && !(a[0].offset <= x < a[0].End())
  {
    if Covers(a, x) {
      var i :| 0 <= i < |a| && a[i].offset <= x < a[i].End();
      if i > 0 { assert a[1..][i - 1] == a[i]; }
    }
  }

  /** Taking a region out of the free list and giving it back restores the very same list. */
  lemma TakeReleaseIsIdentity(before: seq<Block>, taken: seq<Block>, after: seq<Block>, offset: nat, size: nat)
    requires Canonical(before)
    requires forall x: nat :: offset <= x < offset + size ==> Covers(before, x)
    requires Taken(before, taken, offset, size) && Released(taken, after, offset, size)
    ensures after == before
  {
    CanonicalUnique(after, before);
  }

  /** Releasing two regions gives the same list in either order. */
  lemma ReleaseOrderIrrelevant(before: seq<Block>, p: seq<Block>, pq: seq<Block>, q: seq<Block>, qp: seq<Block>,
                               o1: nat, s1: nat, o2: nat, s2: nat)
    requires Released(before, p, o1, s1) && Released(p, pq, o2, s2)
    requires Released(before, q, o2, s2) && Released(q, qp, o1, s1)
    ensures pq == qp
  {
    CanonicalUnique(pq, qp);
  }

  // ---- how the four shapes of an edit change the covered bytes

  function RemoveAt(bs: seq<Block>, i: nat): (r: seq<Block>)
    requires i < |bs|
    ensures |r| == |bs| - 1
    ensures forall k :: 0 <= k < |r| ==> r[k] == if k < i then bs[k] else bs[k + 1]
  {
    bs[..i] + bs[i + 1..]
  }

  function InsertAt(bs: seq<Block>, i: nat, b: Block): (r: seq<Block>)
    requires i <= |bs|
    ensures |r| == |bs| + 1
    ensures forall k :: 0 <= k < |r| ==> r[k] == if k < i then bs[k] else if k == i then b else bs[k - 1]
  {
    bs[..i] + [b] + bs[i..]
  }

  lemma CoversElsewhere(bs: seq<Block>, i: nat, x: nat)
    requires Canonical(bs) && i < |bs|
    ensures Covers(RemoveAt(bs, i), x) <==> Covers(bs, x) && !(bs[i].offset <= x < bs[i].End())
  {
    if Covers(bs, x) && !(bs[i].offset <= x < bs[i].End()) { KeptByRemove(bs, i, x); }
    if Covers(RemoveAt(bs, i), x) { NotAddedByRemove(bs, i, x); }
  }

  lemma KeptByRemove(bs: seq<Block>, i: nat, x: nat)
    requires i < |bs| && Covers(bs, x) && !(bs[i].offset <= x < bs[i].End())
    ensures Covers(RemoveAt(bs, i), x)
  {
    var k :| 0 <= k < |bs| && bs[k].offset <= x < bs[k].End();
    assert RemoveAt(bs, i)[if k < i then k else k - 1] == bs[k];
  }

  lemma NotAddedByRemove(bs: seq<Block>, i: nat, x: nat)
    requires Canonical(bs) && i < |bs| && Covers(RemoveAt(bs, i), x)
    ensures Covers(bs, x) && !(bs[i].offset <= x < bs[i].End())
  {
    var r := RemoveAt(bs, i);
    var k :| 0 <= k < |r| && r[k].offset <= x < r[k].End();
    var m := if k < i then k else k + 1;
    assert bs[m].offset <= x < bs[m].End();
  }

  lemma CoversUpdate(bs: seq<Block>, i: nat, b: Block, x: nat)
    requires i < |bs|
    ensures Covers(bs[i := b], x) <==> Covers(RemoveAt(bs, i), x) || b.offset <= x < b.End()
  {
    var r, u := RemoveAt(bs, i), bs[i := b];
    if Covers(r, x) {
      var k :| 0 <= k < |r| && r[k].offset <= x < r[k].End();
      assert u[if k < i then k else k + 1] == r[k];
    }
    if b.offset <= x < b.End() { assert u[i] == b; }
    if Covers(u, x) && !(b.offset <= x < b.End()) {
      KeptByRemove(u, i, x);
      assert RemoveAt(u, i) == r;
    }
  }

  lemma RemoveKeepsCanonical(bs: seq<Block>, i: nat)
    requires Canonical(bs) && i < |bs|
    ensures Canonical(RemoveAt(bs, i))
  {
  }

  lemma UpdateKeepsCanonical(bs: seq<Block>, i: nat, b: Block)
    requires Canonical(bs) && i < |bs| && b.size > 0
    requires i > 0 ==> bs[i - 1].End() < b.offset
    requires i + 1 < |bs| ==> b.End() < bs[i + 1].offset
    ensures Canonical(bs[i := b])
  {
    forall j | 0 <= j < i ensures bs[j].End() < b.offset {
      if j < i - 1 { assert bs[j].End() < bs[i - 1].offset; }
    }
    forall j | i < j < |bs| ensures b.End() < bs[j].offset {
      if j > i + 1 { assert bs[i + 1].End() < bs[j].offset; }
    }
  }

  /** The front of a block is handed out (the block disappears when nothing is left of it). */
  function Carve(bs: seq<Block>, i: nat, size: nat): seq<Block>
    requires i < |bs| && size <= bs[i].size
  {
    if bs[i].size == size then RemoveAt(bs, i) else bs[i := Block(bs[i].offset + size, bs[i].size - size)]
  }

  lemma CarveTakes(bs: seq<Block>, i: nat, size: nat)
    requires Canonical(bs) && i < |bs| && 0 < size <= bs[i].size
    ensures Taken(bs, Carve(bs, i, size), bs[i].offset, size)
    ensures forall x: nat :: bs[i].offset <= x < bs[i].offset + size ==> Covers(bs, x)
  {
    var b := Block(bs[i].offset + size, bs[i].size - size);
    forall x: nat
      ensures Covers(Carve(bs, i, size), x) <==> Covers(bs, x) && !(bs[i].offset <= x < bs[i].offset + size)
      ensures bs[i].offset <= x < bs[i].offset + size ==> Covers(bs, x)
    {
      CoversElsewhere(bs, i, x);
      CoversUpdate(bs, i, b, x);
      if bs[i].offset <= x < bs[i].End() { assert Covers(bs, x); }
    }
  }

  ghost predicate GainsAt(before: seq<Block>, after: seq<Block>, offset: nat, size: nat, x: nat) {
    Covers(after, x) <==> Covers(before, x) || offset <= x < offset + size
  }

  lemma MakeReleased(before: seq<Block>, after: seq<Block>, offset: nat, size: nat)
    requires Canonical(after) && forall x: nat :: GainsAt(before, after, offset, size, x)
    ensures Released(before, after, offset, size)
  {
    forall x: nat ensures Covers(after, x) <==> Covers(before, x) || offset <= x < offset + size {
      assert GainsAt(before, after, offset, size, x);
    }
  }

  /** A block grows upwards over a region that starts where it ends. */
  lemma GrowUp(bs: seq<Block>, i: nat, size: nat)
    requires Canonical(bs) && i < |bs| && size > 0
    requires i + 1 < |bs| ==> bs[i].End() + size < bs[i + 1].offset
    ensures Released(bs, bs[i := Block(bs[i].offset, bs[i].size + size)], bs[i].End(), size)
  {
    var b := Block(bs[i].offset, bs[i].size + size);
    UpdateKeepsCanonical(bs, i, b);
    var grown, offset := bs[i := b], bs[i].End();
    forall x: nat ensures GainsAt(bs, grown, offset, size, x) {
      CoversElsewhere(bs, i, x);
      CoversUpdate(bs, i, b, x);
      if bs[i].offset <= x < bs[i].End() { assert Covers(bs, x); }
    }
    MakeReleased(bs, grown, offset, size);
  }

  /** A block grows upwards until it touches its successor, which it swallows. */
  lemma GrowUpAndJoin(bs: seq<Block>, i: nat, size: nat)
    requires Canonical(bs) && i + 1 < |bs| && size > 0
    requires bs[i].End() + size == bs[i + 1].offset
    ensures Released(bs, RemoveAt(bs[i := Block(bs[i].offset, bs[i].size + size + bs[i + 1].size)], i + 1),
        bs[i].End(), size)
  {
    var mid := RemoveAt(bs, i + 1);
    var b := Block(bs[i].offset, bs[i].size + size + bs[i + 1].size);
    RemoveKeepsCanonical(bs, i + 1);
    UpdateKeepsCanonical(mid, i, b);
    var r := RemoveAt(bs[i := b], i + 1);
    assert r == mid[i := b];
    var offset := bs[i].End();
    forall x: nat ensures GainsAt(bs, r, offset, size, x) { JoinCovers(bs, i, size, x); }
    MakeReleased(bs, r, offset, size);
  }

  lemma JoinCovers(bs: seq<Block>, i: nat, size: nat, x: nat)
    requires Canonical(bs) && i + 1 < |bs|
    requires bs[i].End() + size == bs[i + 1].offset
    ensures Covers(RemoveAt(bs, i + 1)[i := Block(bs[i].offset, bs[i].size + size + bs[i + 1].size)], x)
       <==> Covers(bs, x) || bs[i].End() <= x < bs[i].End() + size
  {
    var mid := RemoveAt(bs, i + 1);
    RemoveKeepsCanonical(bs, i + 1);
    CoversElsewhere(bs, i + 1, x);
    CoversElsewhere(mid, i, x);
    CoversUpdate(mid, i, Block(bs[i].offset, bs[i].size + size + bs[i + 1].size), x);
    if bs[i].offset <= x < bs[i].End() { assert Covers(bs, x); }
    if bs[i + 1].offset <= x < bs[i + 1].End() { assert Covers(bs, x); }
  }

  /** A block grows downwards over a region that ends where it starts. */
  lemma GrowDown(bs: seq<Block>, i: nat, offset: nat, size: nat)
    requires Canonical(bs) && i < |bs| && size > 0 && offset + size == bs[i].offset
    requires i > 0 ==> bs[i - 1].End() < offset
    ensures Released(bs, bs[i := Block(offset, bs[i].size + size)], offset, size)
  {
    var b := Block(offset, bs[i].size + size);
    UpdateKeepsCanonical(bs, i, b);
    var grown := bs[i := b];
    forall x: nat ensures GainsAt(bs, grown, offset, size, x) {
      CoversElsewhere(bs, i, x);
      CoversUpdate(bs, i, b, x);
      if bs[i].offset <= x < bs[i].End() { assert Covers(bs, x); }
    }
    MakeReleased(bs, grown, offset, size);
  }

  lemma CoversInsert(bs: seq<Block>, pos: nat, b: Block, x: nat)
    requires pos <= |bs|
    ensures Covers(InsertAt(bs, pos, b), x) <==> Covers(bs, x) || b.offset <= x < b.End()
  {
    var r := InsertAt(bs, pos, b);
    if b.offset <= x < b.End() { assert r[pos] == b; }
    if Covers(bs, x) {
      var k :| 0 <= k < |bs| && bs[k].offset <= x < bs[k].End();
      assert r[if k < pos then k else k + 1] == bs[k];
    }
    if Covers(r, x) && !(b.offset <= x < b.End()) {
      KeptByRemove(r, pos, x);
      assert RemoveAt(r, pos) == bs;
    }
  }

  lemma InsertKeepsCanonical(bs: seq<Block>, pos: nat, b: Block)
    requires Canonical(bs) && pos <= |bs| && b.size > 0
    requires forall k :: 0 <= k < pos ==> bs[k].End() < b.offset
    requires forall k :: pos <= k < |bs| ==> b.End() < bs[k].offset
    ensures Canonical(InsertAt(bs, pos, b))
  {
    var r := InsertAt(bs, pos, b);
    forall i, j | 0 <= i < j < |r| ensures r[i].End() < r[j].offset {
      var p, q := if i < pos then i else i - 1, if j < pos then j else j - 1;
      assert i != pos ==> r[i] == bs[p];
      assert j != pos ==> r[j] == bs[q];
    }
  }

  /** A region that touches no block becomes a block of its own. */
  lemma InsertReleases(bs: seq<Block>, pos: nat, offset: nat, size: nat)
    requires Canonical(bs) && pos <= |bs| && size > 0
    requires forall k :: 0 <= k < pos ==> bs[k].End() < offset
    requires forall k :: pos <= k < |bs| ==> offset + size < bs[k].offset
    ensures Released(bs, InsertAt(bs, pos, Block(offset, size)), offset, size)
  {
    var b := Block(offset, size);
    var r := InsertAt(bs, pos, b);
    InsertKeepsCanonical(bs, pos, b);
    forall x: nat ensures GainsAt(bs, r, offset, size, x) { CoversInsert(bs, pos, b, x); }
    MakeReleased(bs, r, offset, size);
  }
}
