/** Writing a tensor that is cut into pieces, one per device, and reading it back. */
module Scatter {
  import opened Arithmetic

  type Byte = bv8

  /** The bytes of row `r`, `n` of them from `off` on, where rows are `stride` apart. */
  function RowAt(s: seq<Byte>, off: nat, stride: nat, n: nat, r: nat): seq<Byte>
    requires off + r * stride + n <= |s|
  {
    s[off + r * stride..off + r * stride + n]
  }

  /** Position `p` is one of the `n` bytes of one of the first `rows` rows. */
  ghost predicate Hit(p: nat, off: nat, stride: nat, n: nat, rows: nat) {
    exists r :: 0 <= r < rows && InRow(p, off, stride, n, r)
  }

  ghost predicate InRow(p: nat, off: nat, stride: nat, n: nat, r: nat) {
    off + r * stride <= p < off + r * stride + n
  }

  ghost predicate RowsFit(off: nat, stride: nat, n: nat, rows: nat, length: nat) {
    forall r :: 0 <= r < rows ==> RowFits(off, stride, n, r, length)
  }

  ghost predicate RowFits(off: nat, stride: nat, n: nat, r: nat, length: nat) {
    off + r * stride + n <= length
  }

  lemma RowsApart(stride: nat, r: nat, k: nat)
    requires r < k
    ensures r * stride + stride <= k * stride
  {
    assert k * stride == r * stride + (k - r) * stride;
    assert (k - r) * stride == stride + (k - r - 1) * stride;
  }

  /** Row `r` has arrived. */
  ghost predicate Arrived(dst: seq<Byte>, off: nat, stride: nat, src: seq<Byte>, srcOff: nat, srcStride: nat, n: nat,
                          r: nat) {
    && RowFits(off, stride, n, r, |dst|) && RowFits(srcOff, srcStride, n, r, |src|)
    && RowAt(dst, off, stride, n, r) == RowAt(src, srcOff, srcStride, n, r)
  }

  method CopyRow(dst: array<Byte>, to_: nat, src: seq<Byte>, from_: nat, n: nat)
    requires to_ + n <= dst.Length && from_ + n <= |src|
    modifies dst
    ensures dst[to_..to_ + n] == src[from_..from_ + n]
    ensures forall p :: 0 <= p < dst.Length && !(to_ <= p < to_ + n) ==> dst[p] == old(dst[p])
  {
    forall b | 0 <= b < n { dst[to_ + b] := src[from_ + b]; }
  }

  /** `rows` pieces of `n` bytes, from and to places that are a stride apart. */
  method Set2D(dst: array<Byte>, off: nat, stride: nat, src: seq<Byte>, srcOff: nat, srcStride: nat, n: nat, rows: nat)
    requires n <= stride && RowsFit(off, stride, n, rows, dst.Length) && RowsFit(srcOff, srcStride, n, rows, |src|)
    modifies dst
    ensures forall r :: 0 <= r < rows ==> Arrived(dst[..], off, stride, src, srcOff, srcStride, n, r)
    ensures forall p :: 0 <= p < dst.Length && !Hit(p, off, stride, n, rows) ==> dst[p] == old(dst[p])
  {
    var k := 0;
    while k < rows
      invariant k <= rows
      invariant forall r :: 0 <= r < k ==> Arrived(dst[..], off, stride, src, srcOff, srcStride, n, r)
      invariant forall p :: 0 <= p < dst.Length && !Hit(p, off, stride, n, k) ==> dst[p] == old(dst[p])
    {
      assert RowFits(off, stride, n, k, dst.Length) && RowFits(srcOff, srcStride, n, k, |src|);
      ghost var before := dst[..];
      NotNegative(k, stride);
      NotNegative(k, srcStride);
      CopyRow(dst, off + k * stride, src, srcOff + k * srcStride, n);
      NextRow(before, dst[..], off, stride, src, srcOff, srcStride, n, k);
      k := k + 1;
    }
  }

  lemma NextRow(before: seq<Byte>, after: seq<Byte>, off: nat, stride: nat, src: seq<Byte>, srcOff: nat,
                srcStride: nat, n: nat, k: nat)
    requires n <= stride && |before| == |after| && RowFits(off, stride, n, k, |before|)
    requires RowFits(srcOff, srcStride, n, k, |src|)
    requires forall r :: 0 <= r < k ==> Arrived(before, off, stride, src, srcOff, srcStride, n, r)
    requires RowAt(after, off, stride, n, k) == RowAt(src, srcOff, srcStride, n, k)
    requires forall p :: 0 <= p < |before| && !InRow(p, off, stride, n, k) ==> after[p] == before[p]
    ensures forall r :: 0 <= r < k + 1 ==> Arrived(after, off, stride, src, srcOff, srcStride, n, r)
    ensures forall p: nat :: Hit(p, off, stride, n, k + 1) <==> Hit(p, off, stride, n, k) || InRow(p, off, stride, n, k)
  {
    forall r | 0 <= r < k + 1 ensures Arrived(after, off, stride, src, srcOff, srcStride, n, r) {
      if r < k {
        assert Arrived(before, off, stride, src, srcOff, srcStride, n, r);
        RowsApart(stride, r, k);
        assert RowAt(after, off, stride, n, r) == RowAt(before, off, stride, n, r);
      }
    }
  }

  // ---- pieces of a row

  /** The piece that byte `q` of a row belongs to, among the first `k`. */
  function Locate(sizes: seq<nat>, q: nat, k: nat): (j: nat)
    requires k <= |sizes| && q < Offset(sizes, k)
    ensures j < k && Offset(sizes, j) <= q < Offset(sizes, j) + sizes[j]
  {
    if Offset(sizes, k - 1) <= q then k - 1 else Locate(sizes, q, k - 1)
  }

  lemma {:induction false} LocateIs(sizes: seq<nat>, q: nat, j: nat, k: nat)
    requires j < k <= |sizes| && Offset(sizes, j) <= q < Offset(sizes, j) + sizes[j]
    ensures q < Offset(sizes, k) && Locate(sizes, q, k) == j
  {
    if j < k - 1 { LocateIs(sizes, q, j, k - 1); }
  }

  lemma FactorIsPositive(p: nat, rows: nat, full: nat)
    requires p < rows * full
    ensures full > 0
  {
    if full == 0 { assert rows * full == 0; }
  }

  lemma RowOfByte(p: nat, full: nat, rows: nat)
    requires full > 0 && p < rows * full
    ensures p / full < rows && p % full < full && p == p / full * full + p % full
  {
    var r := p / full;
    assert p == r * full + p % full;
    Monotone(full, rows, r);
  }

  lemma RowAndPlace(p: nat, full: nat, rows: nat) returns (r: nat, q: nat)
    requires p < rows * full
    ensures q < full && r < rows && p == r * full + q
  {
    FactorIsPositive(p, rows, full);
    RowOfByte(p, full, rows);
    r, q := p / full, p % full;
  }

  lemma Monotone(full: nat, rows: nat, r: nat)
    ensures r >= rows ==> r * full >= rows * full
  {
    if r > rows { RowsApart(full, rows, r); }
  }

  lemma RowEnd(r: nat, rows: nat, n: nat)
    requires r < rows
    ensures r * n + n <= rows * n
  {
    RowsApart(n, r, rows);
  }

  lemma RowOfByteIs(r: nat, q: nat, full: nat)
    requires q < full
    ensures (r * full + q) / full == r && (r * full + q) % full == q
  {
    var p := r * full + q;
    var r', q' := p / full, p % full;
    assert p == r' * full + q';
    if r' < r { RowsApart(full, r', r); }
    if r < r' { RowsApart(full, r, r'); }
  }

  /** A tensor of `rows` rows, each cut into pieces of `sizes` bytes, one per device. */
  class MetaTensor {
    const sizes: seq<nat>
    const full: nat
    const rows: nat
    const devs: seq<array<Byte>>

    constructor (sizes: seq<nat>, rows: nat, devs: seq<array<Byte>>)
      requires |devs| == |sizes| && forall j, k :: 0 <= j < k < |devs| ==> devs[j] != devs[k]
      requires forall j :: 0 <= j < |devs| ==> devs[j].Length == rows * sizes[j]
      ensures Valid() && this.sizes == sizes && this.rows == rows && this.devs == devs && full == Offset(sizes, |sizes|)
    {
      this.sizes, this.rows, this.devs := sizes, rows, devs;
      full := Offset(sizes, |sizes|);
    }

    ghost predicate Valid() {
      && |devs| == |sizes| && full == Offset(sizes, |sizes|)
      && (forall j, k :: 0 <= j < k < |devs| ==> devs[j] != devs[k])
      && (forall j :: 0 <= j < |devs| ==> Sized(j))
    }

    ghost predicate Sized(j: nat)
      requires j < |devs| == |sizes|
    {
      devs[j].Length == rows * sizes[j]
    }

    ghost function Bytes(): (b: seq<seq<Byte>>)
      requires Valid()
      reads devs
      ensures |b| == |devs| && (forall j :: 0 <= j < |devs| ==> b[j] == devs[j][..]) && Fits(b, sizes, rows)
    {
      var b := seq(|devs|, j requires 0 <= j < |devs| reads devs => devs[j][..]);
      assert Fits(b, sizes, rows) by {
        forall j | 0 <= j < |devs| ensures |b[j]| == rows * sizes[j] { assert Sized(j); }
      }
      b
    }

    /** The tensor as its user sees it. */
    ghost function Contents(): (c: seq<Byte>)
      requires Valid()
      reads devs
    {
      Joined(Bytes(), sizes, rows)
    }

    method SetPiece(j: nat, data: seq<Byte>, offsetJ: nat, start: nat, stop: nat, ghost before: seq<seq<Byte>>)
      requires Valid() && j < |devs| && offsetJ == Offset(sizes, j) && start <= stop <= rows
      requires |data| == (stop - start) * full
      requires WrittenUpTo(before, Bytes(), sizes, data, full, start, stop - start, j)
      modifies devs[j]
      ensures WrittenUpTo(before, Bytes(), sizes, data, full, start, stop - start, j + 1)
    {
      assert Sized(j);
      ghost var now := Bytes();
      PieceFits(sizes, j, start, stop, rows, full);
      Set2D(devs[j], start * sizes[j], sizes[j], data, offsetJ, full, sizes[j], stop - start);
      forall k | 0 <= k < |devs| && k != j ensures Bytes()[k] == now[k] { assert devs[k] != devs[j]; }
      assert PieceWritten(now[j], Bytes()[j], sizes[j], Offset(sizes, j), data, full, start, stop - start);
      WrittenNext(before, now, Bytes(), sizes, data, full, start, stop - start, j);
    }

    /** Writes whole rows: each device receives its piece of every row. */
    method SetTensor(data: seq<Byte>, offset: nat)
      requires Valid() && full > 0 && offset % full == 0 && |data| % full == 0 && offset + |data| <= rows * full
      modifies devs
      ensures Contents() == old(Contents())[..offset] + data + old(Contents())[offset + |data|..]
    {
      var start, stop := offset / full, (offset + |data|) / full;
      RowRange(offset, |data|, full, rows);
      ghost var before := Bytes();
      var offsetJ, j := 0, 0;
      while j < |devs|
        invariant j <= |devs| && offsetJ == Offset(sizes, j)
        invariant WrittenUpTo(before, Bytes(), sizes, data, full, start, stop - start, j)
      {
        SetPiece(j, data, offsetJ, start, stop, before);
        offsetJ := offsetJ + sizes[j];
        j := j + 1;
      }
      AllAreWritten(before, Bytes(), sizes, data, full, start, stop - start);
      RowsWritten(before, Bytes(), sizes, rows, data, offset, full, start, stop);
    }

    /** Reads whole rows back, piece by piece. */
    method GetTensor(offset: nat, size: nat) returns (data: array<Byte>)
      requires Valid() && full > 0 && offset % full == 0 && size % full == 0 && offset + size <= rows * full
      ensures fresh(data) && data[..] == Contents()[offset..offset + size]
    {
      var start, stop := offset / full, (offset + size) / full;
      RowRange(offset, size, full, rows);
      data := new Byte[size];
      ghost var count := stop - start;
      var offsetJ, j := 0, 0;
      while j < |devs|
        invariant j <= |devs| && offsetJ == Offset(sizes, j)
        invariant forall k :: 0 <= k < j ==> PieceRead(data[..], Bytes(), sizes, full, start, count, k)
      {
        ghost var now := data[..];
        GetPiece(j, data, offsetJ, start, stop);
        forall k | 0 <= k < j ensures PieceRead(data[..], Bytes(), sizes, full, start, count, k) {
          PieceKept(now, data[..], Bytes(), sizes, full, start, count, k, j);
        }
        offsetJ := offsetJ + sizes[j];
        j := j + 1;
      }
      assert AllRead(data[..], Bytes(), sizes, full, start, count);
      RowsRead(data[..], Bytes(), sizes, rows, offset, full, start, stop);
    }

    /** Writes all rows of a tensor whose rows consist of several segments, each cut into pieces. The
        sizes are listed segment by segment. */
    method SetSegments(data: seq<Byte>, ne: seq<nat>, segments: nat)
      requires Valid() && |ne| == segments * |devs| && |data| == rows * full && full == Offset(ne, |ne|)
      requires SizesAre(sizes, ne, segments)
      modifies devs
      ensures forall s, j ::
          0 <= s < segments && 0 <= j < |devs| ==> SegmentWritten(Bytes(), sizes, ne, segments, data, full, rows, s, j)
      ensures SpreadOut(Bytes(), sizes, ne, segments, data, full, rows)
    {
      var offsetData, simpleOffsets, s := 0, seq(|devs|, _ => 0), 0;
      while s < segments
        invariant s <= segments && SegmentsWritten(Bytes(), sizes, ne, segments, data, full, rows, s, 0)
        invariant OffsetsAre(offsetData, simpleOffsets, ne, segments, |devs|, s, 0)
      {
        offsetData, simpleOffsets := SetOneSegment(data, ne, segments, s, offsetData, simpleOffsets);
        s := s + 1;
      }
      assert SegmentsWritten(Bytes(), sizes, ne, segments, data, full, rows, segments, 0);
      SegmentsSpreadOut(Bytes(), sizes, ne, segments, data, full, rows);
    }

    method SetOneSegment(data: seq<Byte>, ne: seq<nat>, segments: nat, s: nat, offset: nat, offsets: seq<nat>)
      returns (offsetData: nat, simpleOffsets: seq<nat>)
      requires Valid() && |ne| == segments * |devs| && |data| == rows * full && full == Offset(ne, |ne|) && s < segments
      requires SizesAre(sizes, ne, segments)
      requires OffsetsAre(offset, offsets, ne, segments, |devs|, s, 0)
      requires SegmentsWritten(Bytes(), sizes, ne, segments, data, full, rows, s, 0)
      modifies devs
      ensures OffsetsAre(offsetData, simpleOffsets, ne, segments, |devs|, s + 1, 0)
      ensures SegmentsWritten(Bytes(), sizes, ne, segments, data, full, rows, s + 1, 0)
    {
      offsetData, simpleOffsets := offset, offsets;
      var j := 0;
      while j < |devs|
        invariant j <= |devs| && OffsetsAre(offsetData, simpleOffsets, ne, segments, |devs|, s, j)
        invariant SegmentsWritten(Bytes(), sizes, ne, segments, data, full, rows, s, j)
      {
        OffsetsNow(offsetData, simpleOffsets, ne, segments, |devs|, s, j);
        SetSegment(data, ne, segments, s, j, offsetData, simpleOffsets[j]);
        var i := IndexOf(ne, segments, |devs|, s, j);
        OffsetsAdvance(offsetData, simpleOffsets, ne, segments, |devs|, s, j, i,
            simpleOffsets[j := simpleOffsets[j] + ne[i]], j + 1);
        offsetData, simpleOffsets := offsetData + ne[i], simpleOffsets[j := simpleOffsets[j] + ne[i]];
        j := j + 1;
      }
      NextSegment(offsetData, simpleOffsets, Bytes(), sizes, ne, segments, data, full, rows, s);
    }

    method SetSegment(data: seq<Byte>, ne: seq<nat>, segments: nat, s: nat, j: nat, offsetData: nat, simpleOffset: nat)
      requires Valid() && |ne| == segments * |devs| && |data| == rows * full && full == Offset(ne, |ne|)
      requires s < segments && j < |devs|
      requires SizesAre(sizes, ne, segments)
      requires offsetData == Offset(ne, IndexOf(ne, segments, |devs|, s, j))
      requires simpleOffset == Offset(OfDevice(ne, segments, |devs|, j), s)
      requires SegmentsWritten(Bytes(), sizes, ne, segments, data, full, rows, s, j)
      modifies devs[j]
      ensures SegmentsWritten(Bytes(), sizes, ne, segments, data, full, rows, s, j + 1)
    {
      assert Sized(j);
      ghost var before := Bytes();
      var i := IndexOf(ne, segments, |devs|, s, j);
      SegmentFits(sizes, ne, segments, rows, s, j);
      Set2D(devs[j], simpleOffset, sizes[j], data, offsetData, full, ne[i], rows);
      forall k | 0 <= k < |devs| && k != j ensures Bytes()[k] == before[k] { assert devs[k] != devs[j]; }
      SegmentStep(before, Bytes(), sizes, ne, segments, data, full, rows, s, j);
    }

    method GetPiece(j: nat, data: array<Byte>, offsetJ: nat, start: nat, stop: nat)
      requires Valid() && j < |devs| && offsetJ == Offset(sizes, j) && start <= stop <= rows
      requires data.Length == (stop - start) * full
      requires forall k :: 0 <= k < |devs| ==> devs[k] != data
      modifies data
      ensures PieceRead(data[..], Bytes(), sizes, full, start, stop - start, j)
      ensures forall p ::
          0 <= p < data.Length && !Hit(p, offsetJ, full, sizes[j], stop - start) ==> data[p] == old(data[p])
    {
      assert Sized(j);
      PieceFits(sizes, j, start, stop, rows, full);
      OffsetsGrow(sizes, j + 1, |sizes|);
      Set2D(data, offsetJ, full, devs[j][..], start * sizes[j], sizes[j], sizes[j], stop - start);
    }
  }

  /** The piece of device `j` has arrived in all `count` rows. */
  ghost predicate PieceRead(data: seq<Byte>, bytes: seq<seq<Byte>>, sizes: seq<nat>, full: nat, start: nat,
                            count: nat, j: nat)
    requires j < |bytes| == |sizes|
  {
    forall r ::
        0 <= r < count ==> Arrived(data, Offset(sizes, j), full, bytes[j], start * sizes[j], sizes[j], sizes[j], r)
  }

  ghost predicate AllRead(data: seq<Byte>, bytes: seq<seq<Byte>>, sizes: seq<nat>, full: nat, start: nat, count: nat) {
    |bytes| == |sizes| && forall j :: 0 <= j < |sizes| ==> PieceRead(data, bytes, sizes, full, start, count, j)
  }

  /** Other pieces of the rows are not hit. */
  lemma PieceKept(before: seq<Byte>, after: seq<Byte>, bytes: seq<seq<Byte>>, sizes: seq<nat>, full: nat, start: nat,
                  count: nat, k: nat, j: nat)
    requires k < j < |bytes| == |sizes| && full == Offset(sizes, |sizes|) && |after| == |before|
    requires PieceRead(before, bytes, sizes, full, start, count, k)
    requires forall p :: 0 <= p < |after| && !Hit(p, Offset(sizes, j), full, sizes[j], count) ==> after[p] == before[p]
    ensures PieceRead(after, bytes, sizes, full, start, count, k)
  {
    OffsetsGrow(sizes, k + 1, j);
    OffsetsGrow(sizes, j + 1, |sizes|);
    RowsKept(before, after, full, Offset(sizes, k), sizes[k], Offset(sizes, j), sizes[j], count, bytes[k],
        start * sizes[k], sizes[k]);
  }

  lemma RowsKept(before: seq<Byte>, after: seq<Byte>, full: nat, off: nat, n: nat, off': nat, n': nat, count: nat,
                 src: seq<Byte>, srcOff: nat, srcStride: nat)
    requires off + n <= off' && off' + n' <= full && |after| == |before|
    requires forall r :: 0 <= r < count ==> Arrived(before, off, full, src, srcOff, srcStride, n, r)
    requires forall p :: 0 <= p < |after| && !Hit(p, off', full, n', count) ==> after[p] == before[p]
    ensures forall r :: 0 <= r < count ==> Arrived(after, off, full, src, srcOff, srcStride, n, r)
  {
    forall r | 0 <= r < count ensures Arrived(after, off, full, src, srcOff, srcStride, n, r) {
      RowKept(before, after, full, off, n, off', n', count, r, src, srcOff, srcStride);
    }
  }

  lemma RowKept(before: seq<Byte>, after: seq<Byte>, full: nat, off: nat, n: nat, off': nat, n': nat, count: nat,
                r: nat, src: seq<Byte>, srcOff: nat, srcStride: nat)
    requires off + n <= off' && off' + n' <= full && |after| == |before|
    requires Arrived(before, off, full, src, srcOff, srcStride, n, r)
    requires forall p :: 0 <= p < |after| && !Hit(p, off', full, n', count) ==> after[p] == before[p]
    ensures Arrived(after, off, full, src, srcOff, srcStride, n, r)
  {
    var base := off + r * full;
    forall p | base <= p < base + n ensures after[p] == before[p] { NotInOther(p, full, off, n, off', n', count, r); }
    assert RowAt(after, off, full, n, r) == RowAt(before, off, full, n, r);
  }

  lemma NotInOther(p: nat, full: nat, off: nat, n: nat, off': nat, n': nat, count: nat, r: nat)
    requires off + n <= off' && off' + n' <= full && InRow(p, off, full, n, r)
    ensures !Hit(p, off', full, n', count)
  {
    forall k | 0 <= k < count ensures !InRow(p, off', full, n', k) {
      if k < r { RowsApart(full, k, r); } else if r < k { RowsApart(full, r, k); }
    }
  }

  lemma RowsRead(data: seq<Byte>, bytes: seq<seq<Byte>>, sizes: seq<nat>, rows: nat, offset: nat, full: nat,
                 start: nat, stop: nat)
    requires Fits(bytes, sizes, rows) && start <= stop <= rows && full == Offset(sizes, |sizes|)
    requires offset == start * full && |data| == (stop - start) * full
    requires AllRead(data, bytes, sizes, full, start, stop - start)
    ensures offset + |data| <= |Joined(bytes, sizes, rows)|
    ensures data == Joined(bytes, sizes, rows)[offset..offset + |data|]
  {
    RowShift(stop, start, full);
    Monotone(full, stop, rows);
    var all := Joined(bytes, sizes, rows);
    assert offset + |data| <= |all|;
    forall p | 0 <= p < |data| ensures data[p] == all[offset + p] {
      AnyByteRead(data, bytes, sizes, rows, offset, full, start, stop, offset + p);
    }
  }

  lemma AnyByteRead(data: seq<Byte>, bytes: seq<seq<Byte>>, sizes: seq<nat>, rows: nat, offset: nat, full: nat,
                    start: nat, stop: nat, p: nat)
    requires Fits(bytes, sizes, rows) && start <= stop <= rows && full == Offset(sizes, |sizes|)
    requires offset == start * full && |data| == (stop - start) * full && offset <= p < offset + |data|
    requires p < rows * full
    requires AllRead(data, bytes, sizes, full, start, stop - start)
    ensures data[p - offset] == Logical(bytes, sizes, rows, p)
  {
    var r, q := RowAndPlace(p, full, rows);
    ByteRead(data, bytes, sizes, rows, offset, full, start, stop, p, r, q);
  }

  lemma ByteRead(data: seq<Byte>, bytes: seq<seq<Byte>>, sizes: seq<nat>, rows: nat, offset: nat, full: nat,
                 start: nat, stop: nat, p: nat, r: nat, q: nat)
    requires Fits(bytes, sizes, rows) && start <= stop <= rows && full == Offset(sizes, |sizes|)
    requires offset == start * full && |data| == (stop - start) * full && offset <= p < offset + |data|
    requires p < rows * full
    requires q < full && r < rows && p == r * full + q
    requires AllRead(data, bytes, sizes, full, start, stop - start)
    ensures data[p - offset] == Logical(bytes, sizes, rows, p)
  {
    RowOfByteIs(r, q, full);
    var j := Locate(sizes, q, |sizes|);
    var n, x := sizes[j], q - Offset(sizes, j);
    assert PieceRead(data, bytes, sizes, full, start, stop - start, j);
    InRange(p, r, q, full, start, stop);
    RowEnd(r, rows, n);
    RowShift(r, start, full);
    RowShift(r, start, n);
    ArrivedByte(data, Offset(sizes, j), full, bytes[j], start * n, n, n, r - start, x);
  }

  /** Whole rows in a range of bytes. */
  lemma RowRange(offset: nat, size: nat, full: nat, rows: nat)
    requires full > 0 && offset % full == 0 && size % full == 0 && offset + size <= rows * full
    ensures var start, stop := offset / full, (offset + size) / full;
            start <= stop <= rows && start * full == offset && (stop - start) * full == size
  {
    var start, n := offset / full, size / full;
    assert offset == start * full && size == n * full;
    assert (start + n) * full == offset + size;
    RowOfByteIs(start + n, 0, full);
    if start + n > rows { RowsApart(full, rows, start + n); }
  }

  lemma PieceFits(sizes: seq<nat>, j: nat, start: nat, stop: nat, rows: nat, full: nat)
    requires j < |sizes| && start <= stop <= rows && full == Offset(sizes, |sizes|)
    ensures RowsFit(start * sizes[j], sizes[j], sizes[j], stop - start, rows * sizes[j])
    ensures RowsFit(Offset(sizes, j), full, sizes[j], stop - start, (stop - start) * full)
  {
    OffsetsGrow(sizes, j + 1, |sizes|);
    DeviceRowsFit(start, sizes[j], stop - start, rows);
    DataRowsFit(Offset(sizes, j), full, sizes[j], stop - start);
  }

  lemma DeviceRowsFit(start: nat, n: nat, k: nat, rows: nat)
    requires start + k <= rows
    ensures RowsFit(start * n, n, n, k, rows * n)
  {
    var off, length := start * n, rows * n;
    forall r | 0 <= r < k ensures RowFits(off, n, n, r, length) { DeviceRowFits(start, r, n, rows); }
  }

  lemma DataRowsFit(off: nat, full: nat, n: nat, k: nat)
    requires off + n <= full
    ensures RowsFit(off, full, n, k, k * full)
  {
    var length := k * full;
    forall r | 0 <= r < k ensures RowFits(off, full, n, r, length) { RowEnd(r, k, full); }
  }

  lemma DeviceRowFits(start: nat, r: nat, n: nat, rows: nat)
    requires start + r < rows
    ensures start * n + r * n + n <= rows * n
  {
    RowEnd(start + r, rows, n);
    RowShift(start + r, start, n);
  }

  /** A device has its pieces, `n` bytes from `piece` on, of the `rows` rows of `data`, as its rows from
      `start` on, and its old bytes elsewhere. */
  ghost predicate PieceWritten(before: seq<Byte>, after: seq<Byte>, n: nat, piece: nat, data: seq<Byte>, full: nat,
                               start: nat, rows: nat) {
    && |after| == |before|
    && (forall r :: 0 <= r < rows ==> Arrived(after, start * n, n, data, piece, full, n, r))
    && (forall p :: 0 <= p < |after| && !Hit(p, start * n, n, n, rows) ==> after[p] == before[p])
  }

  lemma PieceByte(before: seq<Byte>, after: seq<Byte>, n: nat, piece: nat, data: seq<Byte>, full: nat, start: nat,
                  rows: nat, r: nat, x: nat)
    requires PieceWritten(before, after, n, piece, data, full, start, rows) && x < n && r * n + x < |after|
    ensures start <= r < start + rows ==>
        piece + (r - start) * full + x < |data| && after[r * n + x] == data[piece + (r - start) * full + x]
    ensures !(start <= r < start + rows) ==> after[r * n + x] == before[r * n + x]
  {
    if start <= r < start + rows {
      RowShift(r, start, n);
      ArrivedByte(after, start * n, n, data, piece, full, n, r - start, x);
    } else {
      NotHit(r, x, n, start, rows);
    }
  }

  ghost predicate WrittenAt(before: seq<seq<Byte>>, after: seq<seq<Byte>>, sizes: seq<nat>, data: seq<Byte>,
                            full: nat, start: nat, rows: nat, j: nat)
    requires |before| == |after| == |sizes| && j < |sizes|
  {
    PieceWritten(before[j], after[j], sizes[j], Offset(sizes, j), data, full, start, rows)
  }

  ghost predicate AllWritten(before: seq<seq<Byte>>, after: seq<seq<Byte>>, sizes: seq<nat>, data: seq<Byte>,
                             full: nat, start: nat, rows: nat) {
    && |before| == |after| == |sizes|
    && forall j :: 0 <= j < |sizes| ==> WrittenAt(before, after, sizes, data, full, start, rows, j)
  }

  /** The devices before `j` have their pieces, the others are as before. */
  ghost predicate WrittenUpTo(before: seq<seq<Byte>>, now: seq<seq<Byte>>, sizes: seq<nat>, data: seq<Byte>,
                              full: nat, start: nat, rows: nat, j: nat) {
    && |before| == |now| == |sizes|
    && (forall k :: 0 <= k < j && k < |sizes| ==> WrittenAt(before, now, sizes, data, full, start, rows, k))
    && (forall k :: j <= k < |sizes| ==> now[k] == before[k])
  }

  lemma WrittenNext(before: seq<seq<Byte>>, now: seq<seq<Byte>>, after: seq<seq<Byte>>, sizes: seq<nat>,
                    data: seq<Byte>, full: nat, start: nat, rows: nat, j: nat)
    requires WrittenUpTo(before, now, sizes, data, full, start, rows, j) && j < |sizes| == |after|
    requires forall k :: 0 <= k < |after| && k != j ==> after[k] == now[k]
    requires PieceWritten(now[j], after[j], sizes[j], Offset(sizes, j), data, full, start, rows)
    ensures WrittenUpTo(before, after, sizes, data, full, start, rows, j + 1)
  {
    forall k | 0 <= k < j + 1 ensures WrittenAt(before, after, sizes, data, full, start, rows, k) {
      if k < j { assert WrittenAt(before, now, sizes, data, full, start, rows, k); }
    }
  }

  lemma AllAreWritten(before: seq<seq<Byte>>, now: seq<seq<Byte>>, sizes: seq<nat>, data: seq<Byte>, full: nat,
                      start: nat, rows: nat)
    requires WrittenUpTo(before, now, sizes, data, full, start, rows, |sizes|)
    ensures AllWritten(before, now, sizes, data, full, start, rows)
  {
  }

  lemma RowsWritten(before: seq<seq<Byte>>, after: seq<seq<Byte>>, sizes: seq<nat>, rows: nat, data: seq<Byte>,
                    offset: nat, full: nat, start: nat, stop: nat)
    requires Fits(before, sizes, rows) && Fits(after, sizes, rows) && start <= stop <= rows
    requires full == Offset(sizes, |sizes|) && offset == start * full && |data| == (stop - start) * full
    requires AllWritten(before, after, sizes, data, full, start, stop - start)
    ensures offset + |data| <= |Joined(before, sizes, rows)|
    ensures Joined(after, sizes, rows)
        == Joined(before, sizes, rows)[..offset] + data + Joined(before, sizes, rows)[offset + |data|..]
  {
    RowShift(stop, start, full);
    Monotone(full, stop, rows);
    var a, b := Joined(before, sizes, rows), Joined(after, sizes, rows);
    forall p: nat | p < |a| ensures b[p] == if offset <= p < offset + |data| then data[p - offset] else a[p] {
      AnyByteWritten(before, after, sizes, rows, data, offset, full, start, stop, p);
    }
    Splice(a, b, data, offset);
  }

  lemma AnyByteWritten(before: seq<seq<Byte>>, after: seq<seq<Byte>>, sizes: seq<nat>, rows: nat, data: seq<Byte>,
                       offset: nat, full: nat, start: nat, stop: nat, p: nat)
    requires Fits(before, sizes, rows) && Fits(after, sizes, rows) && start <= stop <= rows && p < rows * full
    requires full == Offset(sizes, |sizes|) && offset == start * full && |data| == (stop - start) * full
    requires AllWritten(before, after, sizes, data, full, start, stop - start)
    ensures Logical(after, sizes, rows, p)
         == if offset <= p < offset + |data| then data[p - offset] else Logical(before, sizes, rows, p)
  {
    var r, q := RowAndPlace(p, full, rows);
    ByteWritten(before, after, sizes, rows, data, offset, full, start, stop, p, r, q);
  }

  lemma Splice(a: seq<Byte>, b: seq<Byte>, data: seq<Byte>, offset: nat)
    requires |a| == |b| && offset + |data| <= |a|
    requires forall p :: 0 <= p < |a| ==> b[p] == if offset <= p < offset + |data| then data[p - offset] else a[p]
    ensures b == a[..offset] + data + a[offset + |data|..]
  {
  }

  lemma ByteWritten(before: seq<seq<Byte>>, after: seq<seq<Byte>>, sizes: seq<nat>, rows: nat, data: seq<Byte>,
                    offset: nat, full: nat, start: nat, stop: nat, p: nat, r: nat, q: nat)
    requires Fits(before, sizes, rows) && Fits(after, sizes, rows) && start <= stop <= rows && p < rows * full
    requires full == Offset(sizes, |sizes|) && offset == start * full && |data| == (stop - start) * full
    requires AllWritten(before, after, sizes, data, full, start, stop - start)
    requires q < full && r < rows && p == r * full + q
    ensures Logical(after, sizes, rows, p)
         == if offset <= p < offset + |data| then data[p - offset] else Logical(before, sizes, rows, p)
  {
    RowOfByteIs(r, q, full);
    var j := Locate(sizes, q, |sizes|);
    var n, x := sizes[j], q - Offset(sizes, j);
    assert WrittenAt(before, after, sizes, data, full, start, stop - start, j);
    InRange(p, r, q, full, start, stop);
    RowEnd(r, rows, n);
    PieceByte(before[j], after[j], n, Offset(sizes, j), data, full, start, stop - start, r, x);
    if start <= r < stop { RowShift(r, start, full); }
  }

  lemma ArrivedByte(dst: seq<Byte>, off: nat, stride: nat, src: seq<Byte>, srcOff: nat, srcStride: nat, n: nat,
                    r: nat, x: nat)
    requires Arrived(dst, off, stride, src, srcOff, srcStride, n, r) && x < n
    ensures off + r * stride + x < |dst| && srcOff + r * srcStride + x < |src|
    ensures dst[off + r * stride + x] == src[srcOff + r * srcStride + x]
  {
    assert RowAt(dst, off, stride, n, r)[x] == RowAt(src, srcOff, srcStride, n, r)[x];
  }

  lemma RowShift(r: nat, start: nat, n: nat)
    requires start <= r
    ensures start * n + (r - start) * n == r * n
  {
  }

  /** A byte is in the range of rows exactly if its row is. */
  lemma InRange(p: nat, r: nat, q: nat, full: nat, start: nat, stop: nat)
    requires q < full && p == r * full + q && start <= stop
    ensures start * full <= p < stop * full <==> start <= r < stop
    ensures start * full + (stop - start) * full == stop * full
  {
    if r < start { RowsApart(full, r, start); } else { Monotone(full, start, r); }
    if r < stop { RowsApart(full, r, stop); } else { Monotone(full, stop, r); }
  }

  lemma NotHit(r: nat, x: nat, n: nat, start: nat, rows: nat)
    requires x < n && !(start <= r < start + rows)
    ensures !Hit(r * n + x, start * n, n, n, rows)
  {
    var p, off := r * n + x, start * n;
    forall k | 0 <= k < rows ensures !InRow(p, off, n, n, k) {
      RowShift(start + k, start, n);
      if r < start + k { RowsApart(n, r, start + k); } else { RowsApart(n, start + k, r); }
    }
  }

  /** The devices hold pieces of `rows` rows. */
  ghost predicate Fits(bytes: seq<seq<Byte>>, sizes: seq<nat>, rows: nat) {
    |bytes| == |sizes| && forall j :: 0 <= j < |bytes| ==> |bytes[j]| == rows * sizes[j]
  }

  /** Byte `p` of the tensor, wherever it is. */
  ghost function Logical(bytes: seq<seq<Byte>>, sizes: seq<nat>, rows: nat, p: nat): Byte
    requires Fits(bytes, sizes, rows) && p < rows * Offset(sizes, |sizes|)
  {
    var full := Offset(sizes, |sizes|);
    RowOfByte(p, full, rows);
    var r, q := p / full, p % full;
    var j := Locate(sizes, q, |sizes|);
    RowEnd(r, rows, sizes[j]);
    bytes[j][r * sizes[j] + (q - Offset(sizes, j))]
  }

  ghost function Joined(bytes: seq<seq<Byte>>, sizes: seq<nat>, rows: nat): (c: seq<Byte>)
    requires Fits(bytes, sizes, rows)
    ensures |c| == rows * Offset(sizes, |sizes|)
  {
    var n := rows * Offset(sizes, |sizes|);
    seq(n, p requires 0 <= p < n => Logical(bytes, sizes, rows, p))
  }

  // ---- several segments

  /** Where the size of segment `s` on device `j` of `n` is listed. */
  function IndexOf(ne: seq<nat>, segments: nat, n: nat, s: nat, j: nat): (i: nat)
    requires |ne| == segments * n && s <= segments && j <= n && (s == segments ==> j == 0)
    ensures i == s * n + j <= |ne| && (s < segments && j < n ==> i < |ne|)
  {
    if s < segments then RowsApart(n, s, segments); s * n + j else s * n
  }

  /** The sizes of all segments on device `j`. */
  function OfDevice(ne: seq<nat>, segments: nat, n: nat, j: nat): (r: seq<nat>)
    requires |ne| == segments * n && j < n
    ensures |r| == segments && forall s :: 0 <= s < segments ==> r[s] == ne[IndexOf(ne, segments, n, s, j)]
  {
    seq(segments, s requires 0 <= s < segments => ne[IndexOf(ne, segments, n, s, j)])
  }

  /** In every row, segment `s` on device `j` is the next piece of the row, put behind the earlier
      segments on that device. */
  ghost predicate SegmentWritten(bytes: seq<seq<Byte>>, sizes: seq<nat>, ne: seq<nat>, segments: nat, data: seq<Byte>,
                                 full: nat, rows: nat, s: nat, j: nat)
    requires |ne| == segments * |bytes| && |bytes| == |sizes| && s < segments && j < |bytes|
  {
    var i := IndexOf(ne, segments, |bytes|, s, j);
    forall r ::
        0 <= r < rows ==>
        Arrived(bytes[j], Offset(OfDevice(ne, segments, |bytes|, j), s), sizes[j], data, Offset(ne, i), full, ne[i], r)
  }

  /** All segments before `s`, and segment `s` on the devices before `j`. */
  ghost predicate SegmentsWritten(bytes: seq<seq<Byte>>, sizes: seq<nat>, ne: seq<nat>, segments: nat,
                                  data: seq<Byte>, full: nat, rows: nat, s: nat, j: nat) {
    |ne| == segments * |bytes| && |bytes| == |sizes| &&
    forall t, k ::
        0 <= t < segments && 0 <= k < |bytes| && (t < s || (t == s && k < j)) ==>
        SegmentWritten(bytes, sizes, ne, segments, data, full, rows, t, k)
  }

  /** A device's row holds its pieces of all segments. */
  ghost predicate SizesAre(sizes: seq<nat>, ne: seq<nat>, segments: nat) {
    |ne| == segments * |sizes| && forall j :: 0 <= j < |sizes| ==> SizeIs(sizes, ne, segments, j)
  }

  ghost predicate SizeIs(sizes: seq<nat>, ne: seq<nat>, segments: nat, j: nat)
    requires |ne| == segments * |sizes| && j < |sizes|
  {
    sizes[j] == Offset(OfDevice(ne, segments, |sizes|, j), segments)
  }

  lemma SegmentFits(sizes: seq<nat>, ne: seq<nat>, segments: nat, rows: nat, s: nat, j: nat)
    requires SizesAre(sizes, ne, segments) && s < segments && j < |sizes|
    ensures var i, col := IndexOf(ne, segments, |sizes|, s, j), OfDevice(ne, segments, |sizes|, j);
            && ne[i] <= sizes[j] == Offset(col, segments)
            && RowsFit(Offset(ne, i), Offset(ne, |ne|), ne[i], rows, rows * Offset(ne, |ne|))
            && RowsFit(Offset(col, s), sizes[j], ne[i], rows, rows * sizes[j])
  {
    var i, col := IndexOf(ne, segments, |sizes|, s, j), OfDevice(ne, segments, |sizes|, j);
    assert SizeIs(sizes, ne, segments, j) && col[s] == ne[i];
    PieceInRow(ne, i, rows);
    PieceInRow(col, s, rows);
  }

  lemma PieceInRow(ne: seq<nat>, i: nat, rows: nat)
    requires i < |ne|
    ensures Offset(ne, i) + ne[i] <= Offset(ne, |ne|)
    ensures RowsFit(Offset(ne, i), Offset(ne, |ne|), ne[i], rows, rows * Offset(ne, |ne|))
  {
    OffsetsGrow(ne, i + 1, |ne|);
    DataRowsFit(Offset(ne, i), Offset(ne, |ne|), ne[i], rows);
  }

  lemma SegmentStep(before: seq<seq<Byte>>, after: seq<seq<Byte>>, sizes: seq<nat>, ne: seq<nat>, segments: nat,
                    data: seq<Byte>, full: nat, rows: nat, s: nat, j: nat)
    requires SegmentsWritten(before, sizes, ne, segments, data, full, rows, s, j) && |after| == |before|
    requires s < segments && j < |before|
    requires sizes[j] == Offset(OfDevice(ne, segments, |before|, j), segments)
    requires forall k :: 0 <= k < |before| && k != j ==> after[k] == before[k]
    requires |after[j]| == |before[j]| && SegmentWritten(after, sizes, ne, segments, data, full, rows, s, j)
    requires forall p ::
        0 <= p < |after[j]|
        && !Hit(p, Offset(OfDevice(ne, segments, |before|, j), s), sizes[j],
        ne[IndexOf(ne, segments, |before|, s, j)], rows) ==>
               after[j][p] == before[j][p]
    ensures SegmentsWritten(after, sizes, ne, segments, data, full, rows, s, j + 1)
  {
    forall t, k | 0 <= t < segments && 0 <= k < |after| && (t < s || (t == s && k < j + 1))
      ensures SegmentWritten(after, sizes, ne, segments, data, full, rows, t, k)
    {
      if !(t == s && k == j) {
        assert SegmentWritten(before, sizes, ne, segments, data, full, rows, t, k);
        if k == j { EarlierSegmentKept(before, after, sizes, ne, segments, data, full, rows, s, j, t); }
      }
    }
  }

  lemma EarlierSegmentKept(before: seq<seq<Byte>>, after: seq<seq<Byte>>, sizes: seq<nat>, ne: seq<nat>,
                           segments: nat, data: seq<Byte>, full: nat, rows: nat,
                           s: nat, j: nat, t: nat)
    requires |ne| == segments * |before| && |before| == |after| == |sizes| && t < s < segments && j < |before|
    requires |after[j]| == |before[j]|
    requires sizes[j] == Offset(OfDevice(ne, segments, |before|, j), segments)
    requires SegmentWritten(before, sizes, ne, segments, data, full, rows, t, j)
    requires forall p ::
        0 <= p < |after[j]|
        && !Hit(p, Offset(OfDevice(ne, segments, |before|, j), s), sizes[j],
        ne[IndexOf(ne, segments, |before|, s, j)], rows) ==>
               after[j][p] == before[j][p]
    ensures SegmentWritten(after, sizes, ne, segments, data, full, rows, t, j)
  {
    var col := OfDevice(ne, segments, |before|, j);
    var i := IndexOf(ne, segments, |before|, t, j);
    OffsetsGrow(col, t + 1, s);
    OffsetsGrow(col, s + 1, segments);
    forall r | 0 <= r < rows ensures Arrived(after[j], Offset(col, t), sizes[j], data, Offset(ne, i), full, ne[i], r) {
      assert Arrived(before[j], Offset(col, t), sizes[j], data, Offset(ne, i), full, ne[i], r);
      RowKept(before[j], after[j], sizes[j], Offset(col, t), ne[i], Offset(col, s), col[s], rows, r, data,
          Offset(ne, i), full);
    }
  }

  /** Where byte `q` of a row goes: a device and a place in its row. */
  function Target(ne: seq<nat>, segments: nat, n: nat, q: nat): (d: (nat, nat))
    requires |ne| == segments * n && n > 0 && q < Offset(ne, |ne|)
    ensures d.0 < n
  {
    var i := Locate(ne, q, |ne|);
    var s, j := i / n, i % n;
    RowOfByte(i, n, segments);
    (j, Offset(OfDevice(ne, segments, n, j), s) + (q - Offset(ne, i)))
  }

  /** Where byte `x` of the row of device `j` comes from. */
  function Origin(ne: seq<nat>, segments: nat, n: nat, j: nat, x: nat): nat
    requires |ne| == segments * n && j < n && x < Offset(OfDevice(ne, segments, n, j), segments)
  {
    var col := OfDevice(ne, segments, n, j);
    var s := Locate(col, x, segments);
    Offset(ne, IndexOf(ne, segments, n, s, j)) + (x - Offset(col, s))
  }

  /** Every byte of a row goes to exactly one place, and ... */
  lemma TargetHasOrigin(ne: seq<nat>, segments: nat, n: nat, q: nat)
    requires |ne| == segments * n && n > 0 && q < Offset(ne, |ne|)
    ensures var d := Target(ne, segments, n, q);
            d.1 < Offset(OfDevice(ne, segments, n, d.0), segments) && Origin(ne, segments, n, d.0, d.1) == q
  {
    var i := Locate(ne, q, |ne|);
    var s, j := i / n, i % n;
    RowOfByte(i, n, segments);
    LocateIs(OfDevice(ne, segments, n, j), Target(ne, segments, n, q).1, s, segments);
  }

  /** ... every place in a device's row is filled by exactly one byte. */
  lemma OriginHasTarget(ne: seq<nat>, segments: nat, n: nat, j: nat, x: nat)
    requires |ne| == segments * n && j < n && x < Offset(OfDevice(ne, segments, n, j), segments)
    ensures Origin(ne, segments, n, j, x) < Offset(ne, |ne|)
    ensures Target(ne, segments, n, Origin(ne, segments, n, j, x)) == (j, x)
  {
    var s := Locate(OfDevice(ne, segments, n, j), x, segments);
    var i := IndexOf(ne, segments, n, s, j);
    RowOfByteIs(s, j, n);
    LocateIs(ne, Origin(ne, segments, n, j, x), i, |ne|);
  }

  /** Place `x` of row `r` of device `j` holds the byte of the row that belongs there. */
  ghost predicate ByteInPlace(bytes: seq<seq<Byte>>, sizes: seq<nat>, ne: seq<nat>, segments: nat, data: seq<Byte>,
                              full: nat, r: nat, j: nat, x: nat)
    requires |ne| == segments * |bytes| && |bytes| == |sizes| && j < |bytes| && SizesAre(sizes, ne, segments)
    requires x < sizes[j]
  {
    assert SizeIs(sizes, ne, segments, j);
    ByteIs(bytes[j], sizes[j], x, data, full, Origin(ne, segments, |bytes|, j, x), r)
  }

  /** Place `x` of row `r` of a device with rows of `n` bytes holds byte `q` of row `r` of the data. */
  ghost predicate ByteIs(bytes: seq<Byte>, n: nat, x: nat, data: seq<Byte>, full: nat, q: nat, r: nat) {
    r * n + x < |bytes| && r * full + q < |data| && bytes[r * n + x] == data[r * full + q]
  }

  /** Every place of every row on every device holds the byte that belongs there. */
  ghost predicate SpreadOut(bytes: seq<seq<Byte>>, sizes: seq<nat>, ne: seq<nat>, segments: nat, data: seq<Byte>,
                            full: nat, rows: nat) {
    && |ne| == segments * |bytes| && |bytes| == |sizes| && SizesAre(sizes, ne, segments)
    && forall r: nat, j: nat, x: nat ::
        r < rows && j < |bytes| && x < sizes[j] ==> ByteInPlace(bytes, sizes, ne, segments, data, full, r, j, x)
  }

  /** Writing all segments fills every place of the devices, each with the byte it is the target of. */
  lemma SegmentsSpreadOut(bytes: seq<seq<Byte>>, sizes: seq<nat>, ne: seq<nat>, segments: nat, data: seq<Byte>,
                          full: nat, rows: nat)
    requires |ne| == segments * |bytes| && |bytes| == |sizes| && SizesAre(sizes, ne, segments)
    requires forall s, j ::
        0 <= s < segments && 0 <= j < |bytes| ==> SegmentWritten(bytes, sizes, ne, segments, data, full, rows, s, j)
    ensures SpreadOut(bytes, sizes, ne, segments, data, full, rows)
  {
    forall r: nat, j: nat, x: nat | r < rows && j < |bytes| && x < sizes[j]
      ensures ByteInPlace(bytes, sizes, ne, segments, data, full, r, j, x)
    {
      PlaceIsFilled(bytes, sizes, ne, segments, data, full, rows, r, j, x);
    }
  }

  lemma PlaceIsFilled(bytes: seq<seq<Byte>>, sizes: seq<nat>, ne: seq<nat>, segments: nat, data: seq<Byte>, full: nat,
                      rows: nat, r: nat, j: nat, x: nat)
    requires |ne| == segments * |bytes| && |bytes| == |sizes| && SizesAre(sizes, ne, segments) && r < rows
    requires j < |bytes| && x < sizes[j]
    requires forall s, j ::
        0 <= s < segments && 0 <= j < |bytes| ==> SegmentWritten(bytes, sizes, ne, segments, data, full, rows, s, j)
    ensures ByteInPlace(bytes, sizes, ne, segments, data, full, r, j, x)
  {
    assert SizeIs(sizes, ne, segments, j);
    var col := OfDevice(ne, segments, |bytes|, j);
    var s := Locate(col, x, segments);
    var i := IndexOf(ne, segments, |bytes|, s, j);
    assert SegmentWritten(bytes, sizes, ne, segments, data, full, rows, s, j);
    ArrivedByte(bytes[j], Offset(col, s), sizes[j], data, Offset(ne, i), full, ne[i], r, x - Offset(col, s));
  }

  /** And no byte of any row is lost: it can be found at its target. */
  lemma EveryByteArrives(bytes: seq<seq<Byte>>, sizes: seq<nat>, ne: seq<nat>, segments: nat, data: seq<Byte>,
                         full: nat, rows: nat, r: nat, q: nat)
    requires SpreadOut(bytes, sizes, ne, segments, data, full, rows) && |bytes| > 0 && r < rows
    requires q < full == Offset(ne, |ne|)
    ensures var (j, x) := Target(ne, segments, |bytes|, q);
            x < sizes[j] && ByteIs(bytes[j], sizes[j], x, data, full, q, r)
  {
    var (j, x) := Target(ne, segments, |bytes|, q);
    TargetHasOrigin(ne, segments, |bytes|, q);
    assert SizeIs(sizes, ne, segments, j);
    assert ByteInPlace(bytes, sizes, ne, segments, data, full, r, j, x);
  }

  /** The running offsets when segment `s` on device `j` is next. */
  ghost predicate OffsetsAre(offset: nat, offsets: seq<nat>, ne: seq<nat>, segments: nat, n: nat, s: nat, j: nat) {
    && |ne| == segments * n && s <= segments && j <= n && |offsets| == n && (s == segments ==> j == 0)
    && offset == Offset(ne, IndexOf(ne, segments, n, s, j))
    && forall k :: 0 <= k < n ==> OffsetIs(offsets, ne, segments, n, s, j, k)
  }

  ghost predicate OffsetIs(offsets: seq<nat>, ne: seq<nat>, segments: nat, n: nat, s: nat, j: nat, k: nat)
    requires |ne| == segments * n && s <= segments && (s == segments ==> j == 0) && k < n == |offsets|
  {
    offsets[k] == Offset(OfDevice(ne, segments, n, k), if k < j then s + 1 else s)
  }

  lemma OffsetsAdvance(offset: nat, offsets: seq<nat>, ne: seq<nat>, segments: nat, n: nat, s: nat, j: nat, i: nat,
                       offsets': seq<nat>, j': nat)
    requires OffsetsAre(offset, offsets, ne, segments, n, s, j) && s < segments && j < n && j' == j + 1
    requires i == IndexOf(ne, segments, n, s, j)
    requires offsets' == offsets[j := offsets[j] + ne[i]]
    ensures OffsetsAre(offset + ne[i], offsets', ne, segments, n, s, j')
  {
    NextIndex(ne, segments, n, s, j);
    OffsetsAllAdvance(offsets, offsets', ne, segments, n, s, j, j');
  }

  lemma OffsetsNow(offset: nat, offsets: seq<nat>, ne: seq<nat>, segments: nat, n: nat, s: nat, j: nat)
    requires OffsetsAre(offset, offsets, ne, segments, n, s, j) && s < segments && j < n
    ensures offset == Offset(ne, IndexOf(ne, segments, n, s, j))
    ensures offsets[j] == Offset(OfDevice(ne, segments, n, j), s)
  {
    assert OffsetIs(offsets, ne, segments, n, s, j, j);
  }

  lemma NextIndex(ne: seq<nat>, segments: nat, n: nat, s: nat, j: nat)
    requires |ne| == segments * n && s < segments && j < n
    ensures IndexOf(ne, segments, n, s, j + 1) == IndexOf(ne, segments, n, s, j) + 1
    ensures Offset(ne, IndexOf(ne, segments, n, s, j + 1))
        == Offset(ne, IndexOf(ne, segments, n, s, j)) + ne[IndexOf(ne, segments, n, s, j)]
  {
  }

  lemma OffsetsAllAdvance(offsets: seq<nat>, offsets': seq<nat>, ne: seq<nat>, segments: nat, n: nat, s: nat, j: nat,
                          j': nat)
    requires |ne| == segments * n && s < segments && j < n == |offsets| && j' == j + 1
    requires forall k :: 0 <= k < n ==> OffsetIs(offsets, ne, segments, n, s, j, k)
    requires offsets' == offsets[j := offsets[j] + ne[IndexOf(ne, segments, n, s, j)]]
    ensures forall k :: 0 <= k < n ==> OffsetIs(offsets', ne, segments, n, s, j', k)
  {
    forall k | 0 <= k < n
      ensures OffsetIs(offsets', ne, segments, n, s, j', k)
    {
      OffsetAdvances(offsets, ne, segments, n, s, j, k);
    }
  }

  lemma OffsetAdvances(offsets: seq<nat>, ne: seq<nat>, segments: nat, n: nat, s: nat, j: nat, k: nat)
    requires |ne| == segments * n && s < segments && j < n && k < n == |offsets|
    requires OffsetIs(offsets, ne, segments, n, s, j, k)
    ensures OffsetIs(offsets[j := offsets[j] + ne[IndexOf(ne, segments, n, s, j)]], ne, segments, n, s, j + 1, k)
  {
    var col := OfDevice(ne, segments, n, j);
    assert Offset(col, s + 1) == Offset(col, s) + col[s];
  }

  lemma NextSegment(offset: nat, offsets: seq<nat>, bytes: seq<seq<Byte>>, sizes: seq<nat>, ne: seq<nat>,
                    segments: nat, data: seq<Byte>, full: nat, rows: nat, s: nat)
    requires OffsetsAre(offset, offsets, ne, segments, |bytes|, s, |bytes|) && s < segments
    requires SegmentsWritten(bytes, sizes, ne, segments, data, full, rows, s, |bytes|)
    ensures OffsetsAre(offset, offsets, ne, segments, |bytes|, s + 1, 0)
    ensures SegmentsWritten(bytes, sizes, ne, segments, data, full, rows, s + 1, 0)
  {
    var n, s' := |bytes|, s + 1;
    forall k | 0 <= k < n
      ensures OffsetIs(offsets, ne, segments, n, s', 0, k)
    {
      assert OffsetIs(offsets, ne, segments, n, s, n, k);
    }
    forall t, k | 0 <= t < segments && 0 <= k < n && t < s'
      ensures SegmentWritten(bytes, sizes, ne, segments, data, full, rows, t, k)
    {
    }
  }
}
