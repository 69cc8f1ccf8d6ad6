/** How tensors are spread over devices, which state the result of an operation has, and what the
    devices compute together. */
module Sharding {
  import opened Wrappers
  import opened Arithmetic
  import AllReduce

  /** A tensor of two dimensions; `at(i0, i1)` is element i0 of row i1. */
  datatype Mat = Mat(ne0: nat, ne1: nat, at: (nat, nat) -> int)

  /** Devices hold consecutive pieces along an axis, or all of it, or parts to be added. */
  datatype State = Split(axis: nat, ne: seq<nat>) | Mirrored | Partial

  datatype Op =
    | MulMat
    | Elementwise(f: seq<int> -> int)
    | Broadcast(g: (int, int) -> int)                  // the second source is repeated
    | PerRow(r: seq<int> -> seq<int>, scalar: bool)    // each row on its own; a scalar or a row each

  // ---- what operations compute

  function Dot(a: Mat, b: Mat, m: nat, n: nat, k: nat): int {
    if k == 0 then 0 else Dot(a, b, m, n, k - 1) + a.at(k - 1, m) * b.at(k - 1, n)
  }

  function Row(a: Mat, i1: nat): seq<int> {
    seq(a.ne0, i0 requires 0 <= i0 < a.ne0 => a.at(i0, i1))
  }

  function Item(v: seq<int>, i: nat): int {
    if i < |v| then v[i] else 0
  }

  function Rem(i: nat, n: nat): nat {
    if n == 0 then 0 else i % n
  }

  function Values(src: seq<Mat>, i0: nat, i1: nat): seq<int> {
    seq(|src|, k requires 0 <= k < |src| => src[k].at(i0, i1))
  }

  function Apply(op: Op, src: seq<Mat>): Mat {
    match op
    case MulMat =>
      if |src| != 2 then Mat(0, 0, (i: nat, j: nat) => 0)
      else Mat(src[0].ne1, src[1].ne1, (m: nat, n: nat) => Dot(src[0], src[1], m, n, src[0].ne0))
    case Elementwise(f) =>
      if src == [] then Mat(0, 0, (i: nat, j: nat) => 0)
      else Mat(src[0].ne0, src[0].ne1, (i0: nat, i1: nat) => f(Values(src, i0, i1)))
    case Broadcast(g) =>
      if |src| != 2 then Mat(0, 0, (i: nat, j: nat) => 0)
      else Mat(src[0].ne0, src[0].ne1,
          (i0: nat, i1: nat) => g(src[0].at(i0, i1), src[1].at(Rem(i0, src[1].ne0), Rem(i1, src[1].ne1))))
    case PerRow(r, scalar) =>
      if |src| != 1 then Mat(0, 0, (i: nat, j: nat) => 0)
      else Mat(if scalar then 1 else src[0].ne0, src[0].ne1, (i0: nat, i1: nat) => Item(r(Row(src[0], i1)), i0))
  }

  /** The shapes the operations are defined on. */
  predicate Shaped(op: Op, src: seq<Mat>) {
    match op
    case MulMat => |src| == 2 && src[0].ne0 == src[1].ne0
    case Elementwise(_) =>
      |src| > 0 && forall k :: 0 <= k < |src| ==> src[k].ne0 == src[0].ne0 && src[k].ne1 == src[0].ne1
    case Broadcast(_) =>
      && |src| == 2 && src[1].ne0 > 0 && src[1].ne1 > 0
      && src[0].ne0 % src[1].ne0 == 0 && src[0].ne1 % src[1].ne1 == 0
    case PerRow(_, _) => |src| == 1
  }

  // ---- what a state means

  function Extent(a: Mat, axis: nat): nat {
    if axis == 0 then a.ne0 else a.ne1
  }

  function Column(parts: seq<Mat>, i0: nat, i1: nat): seq<int> {
    seq(|parts|, j requires 0 <= j < |parts| => parts[j].at(i0, i1))
  }

  ghost predicate Same(a: Mat, b: Mat) {
    && a.ne0 == b.ne0 && a.ne1 == b.ne1
    && forall i0: nat, i1: nat :: i0 < a.ne0 && i1 < a.ne1 ==> a.at(i0, i1) == b.at(i0, i1)
  }

  /** `part` is the `n` columns, or rows, of `full` from `off` on. */
  ghost predicate Piece(full: Mat, part: Mat, axis: nat, off: nat, n: nat) {
    if axis == 0 then
      && part.ne0 == n && part.ne1 == full.ne1
      && forall i0: nat, i1: nat :: i0 < n && i1 < full.ne1 ==> part.at(i0, i1) == full.at(off + i0, i1)
    else
      && part.ne0 == full.ne0 && part.ne1 == n
      && forall i0: nat, i1: nat :: i0 < full.ne0 && i1 < n ==> part.at(i0, i1) == full.at(i0, off + i1)
  }

  ghost predicate Pieces(a: Mat, parts: seq<Mat>, axis: nat, ne: seq<nat>) {
    |parts| == |ne| && forall i :: 0 <= i < |ne| ==> PieceAt(a, parts, axis, ne, i)
  }

  ghost predicate PieceAt(a: Mat, parts: seq<Mat>, axis: nat, ne: seq<nat>, i: nat)
    requires i < |ne| == |parts|
  {
    Piece(a, parts[i], axis, Offset(ne, i), ne[i])
  }

  ghost predicate AddsUp(full: Mat, parts: seq<Mat>) {
    && (forall j :: 0 <= j < |parts| ==> parts[j].ne0 == full.ne0 && parts[j].ne1 == full.ne1)
    && (forall i0: nat, i1: nat ::
        i0 < full.ne0 && i1 < full.ne1 ==> full.at(i0, i1) == AllReduce.Sum(Column(parts, i0, i1), 0, |parts|))
  }

  /** Recombining what the devices hold gives the tensor. */
  ghost predicate Holds(s: State, full: Mat, parts: seq<Mat>) {
    match s
    case Split(axis, ne) => axis <= 1 && Offset(ne, |ne|) == Extent(full, axis) && Pieces(full, parts, axis, ne)
    case Mirrored => forall j :: 0 <= j < |parts| ==> Same(full, parts[j])
    case Partial => AddsUp(full, parts)
  }

  // ---- which state a result has

  /** A size in the ratio of the source's sizes comes out even; of nothing there is only nothing. */
  predicate ComesOut(size: nat, from: nat, to_: nat) {
    if from > 0 then size * to_ % from == 0 else size * to_ == 0
  }

  function Scaled(size: nat, from: nat, to_: nat): nat {
    if from > 0 then size * to_ / from else 0
  }

  /** Sizes in the ratio of the source's sizes, if they come out even. */
  function TakeOver(ne: seq<nat>, from: nat, to_: nat): Option<seq<nat>> {
    if forall j :: 0 <= j < |ne| ==> ComesOut(ne[j], from, to_) then
      Some(seq(|ne|, j requires 0 <= j < |ne| => Scaled(ne[j], from, to_)))
    else None
  }

  /** All sources have the same state. */
  function Generic(st: seq<State>): Option<State> {
    if |st| > 0 && forall k :: 0 <= k < |st| ==> st[k] == st[0] then Some(st[0]) else None
  }

  function MulMatRule(a: State, b: State): Option<State> {
    match (a, b)
    case (Mirrored, Mirrored) => Some(Mirrored)
    case (Split(ax, ne), Mirrored) => if ax == 1 then Some(Split(0, ne)) else None
    case (Mirrored, Split(ax, ne)) => if ax == 1 then Some(Split(1, ne)) else None
    case (Split(ax, ne), Split(bx, ne')) => if ax == 0 && bx == 0 && ne == ne' then Some(Partial) else None
    case _ => None
  }

  /** The rules, before the sizes are settled; None where the program stops. */
  function Rule(op: Op, st: seq<State>, src: seq<Mat>): Option<State>
    requires |st| == |src| && Shaped(op, src)
  {
    match op
    case MulMat => MulMatRule(st[0], st[1])
    case Elementwise(_) => Generic(st)
    case Broadcast(_) =>
      if st[0].Split? && st[1] == Mirrored && Extent(src[1], st[0].axis) == 1 then Some(st[0]) else Generic(st)
    case PerRow(_, _) => if st[0].Split? && st[0].axis == 0 then None else Some(st[0])
  }

  function FirstSplit(st: seq<State>, k: nat): (i: nat)
    requires k <= |st|
    ensures k <= i <= |st| && (i < |st| ==> st[i].Split?) && forall l :: k <= l < i ==> !st[l].Split?
    decreases |st| - k
  {
    if k < |st| && !st[k].Split? then FirstSplit(st, k + 1) else k
  }

  /** The other split sources have the same ratio. */
  predicate Consistent(st: seq<State>, src: seq<Mat>, ne: seq<nat>, extent: nat)
    requires |st| == |src|
  {
    forall k :: 0 <= k < |st| && st[k].Split? ==> SameRatios(st[k].ne, Extent(src[k], st[k].axis), ne, extent)
  }

  /** The sizes `from` are to `size` what the sizes `ne` are to `extent`. */
  predicate SameRatios(from: seq<nat>, size: nat, ne: seq<nat>, extent: nat) {
    |from| == |ne| && forall j :: 0 <= j < |ne| ==> ne[j] * size == from[j] * extent
  }

  /** The state of a result before any all-reduce. */
  function Infer(op: Op, st: seq<State>, src: seq<Mat>): Option<State>
    requires |st| == |src| && Shaped(op, src)
  {
    match Rule(op, st, src)
    case Some(Split(axis, _)) =>
      var k := FirstSplit(st, 0);
      if k == |st| then None
      else
        var extent := Extent(Apply(op, src), axis);
        (match TakeOver(st[k].ne, Extent(src[k], st[k].axis), extent)
         case Some(ne) => if Consistent(st, src, ne, extent) then Some(Split(axis, ne)) else None
         case None => None)
    case s => s
  }

  // ---- sizes

  lemma {:induction false} ScaledOffset(ne: seq<nat>, from: nat, to_: nat, ne': seq<nat>, j: nat)
    requires TakeOver(ne, from, to_) == Some(ne') && j <= |ne|
    ensures from * Offset(ne', j) == to_ * Offset(ne, j)
  {
    if j > 0 {
      ScaledOffset(ne, from, to_, ne', j - 1);
      assert ComesOut(ne[j - 1], from, to_) && from * ne'[j - 1] == ne[j - 1] * to_;
      Distribute(from, Offset(ne', j - 1), ne'[j - 1]);
      Distribute(to_, Offset(ne, j - 1), ne[j - 1]);
    }
  }

  lemma Cancel(c: nat, x: nat, y: nat)
    requires c > 0 && c * x == c * y
    ensures x == y
  {
  }

  /** The sizes of an inferred split add up to the extent of the result. */
  lemma SizesAddUp(op: Op, st: seq<State>, src: seq<Mat>, s: State)
    requires |st| == |src| && Shaped(op, src) && Infer(op, st, src) == Some(s) && s.Split?
    requires forall k :: 0 <= k < |st| && st[k].Split? ==> Offset(st[k].ne, |st[k].ne|) == Extent(src[k], st[k].axis)
    ensures Offset(s.ne, |s.ne|) == Extent(Apply(op, src), s.axis)
  {
    var k := FirstSplit(st, 0);
    var from, to_ := Extent(src[k], st[k].axis), Extent(Apply(op, src), s.axis);
    ScaledOffset(st[k].ne, from, to_, s.ne, |s.ne|);
    if from > 0 {
      Cancel(from, Offset(s.ne, |s.ne|), to_);
    } else {
      assert to_ == 0;
      NothingAddsUp(s.ne, |s.ne|);
    }
  }

  lemma {:induction false} NothingAddsUp(ne: seq<nat>, j: nat)
    requires j <= |ne| && forall i :: 0 <= i < |ne| ==> ne[i] == 0
    ensures Offset(ne, j) == 0
  {
    if j > 0 { NothingAddsUp(ne, j - 1); }
  }

  // ---- the operations on pieces

  function OnDevice(parts: seq<seq<Mat>>, j: nat): seq<Mat>
    requires forall k :: 0 <= k < |parts| ==> j < |parts[k]|
  {
    seq(|parts|, k requires 0 <= k < |parts| => parts[k][j])
  }

  /** Every device applies the operation to what it holds. */
  function ApplyAll(op: Op, parts: seq<seq<Mat>>, n: nat): (r: seq<Mat>)
    requires forall k :: 0 <= k < |parts| ==> |parts[k]| == n
    ensures |r| == n
  {
    seq(n, j requires 0 <= j < n => Apply(op, OnDevice(parts, j)))
  }

  lemma {:induction false} DotAgrees(a: Mat, b: Mat, m: nat, n: nat, a': Mat, b': Mat, m': nat, n': nat, k: nat)
    requires forall i: nat :: i < k ==> a.at(i, m) == a'.at(i, m') && b.at(i, n) == b'.at(i, n')
    ensures Dot(a, b, m, n, k) == Dot(a', b', m', n', k)
  {
    if k > 0 { DotAgrees(a, b, m, n, a', b', m', n', k - 1); }
  }

  lemma {:induction false} DotSplits(a: Mat, b: Mat, a': Mat, b': Mat, m: nat, n: nat, off: nat, k: nat)
    requires forall i: nat :: i < k ==> a'.at(i, m) == a.at(off + i, m) && b'.at(i, n) == b.at(off + i, n)
    ensures Dot(a, b, m, n, off + k) == Dot(a, b, m, n, off) + Dot(a', b', m, n, k)
  {
    if k > 0 { DotSplits(a, b, a', b', m, n, off, k - 1); }
  }

  lemma MulMatMirrored(a: Mat, b: Mat, a': Mat, b': Mat)
    requires Same(a, a') && Same(b, b') && a.ne0 == b.ne0
    ensures Same(Apply(MulMat, [a, b]), Apply(MulMat, [a', b']))
  {
    forall m: nat, n: nat | m < a.ne1 && n < b.ne1 ensures Dot(a, b, m, n, a.ne0) == Dot(a', b', m, n, a'.ne0) {
      DotAgrees(a, b, m, n, a', b', m, n, a.ne0);
    }
  }

  /** Rows of the first factor give columns of the product. */
  lemma MulMatLeft(a: Mat, b: Mat, a': Mat, b': Mat, off: nat, n: nat)
    requires Piece(a, a', 1, off, n) && Same(b, b') && a.ne0 == b.ne0 && off + n <= a.ne1
    ensures Piece(Apply(MulMat, [a, b]), Apply(MulMat, [a', b']), 0, off, n)
  {
    forall i: nat, k: nat | i < n && k < b.ne1 ensures Dot(a', b', i, k, a'.ne0) == Dot(a, b, off + i, k, a.ne0) {
      DotAgrees(a', b', i, k, a, b, off + i, k, a.ne0);
    }
  }

  /** Rows of the second factor give rows of the product. */
  lemma MulMatRight(a: Mat, b: Mat, a': Mat, b': Mat, off: nat, n: nat)
    requires Same(a, a') && Piece(b, b', 1, off, n) && a.ne0 == b.ne0 && off + n <= b.ne1
    ensures Piece(Apply(MulMat, [a, b]), Apply(MulMat, [a', b']), 1, off, n)
  {
    forall i: nat, k: nat | i < a.ne1 && k < n ensures Dot(a', b', i, k, a'.ne0) == Dot(a, b, i, off + k, a.ne0) {
      DotAgrees(a', b', i, k, a, b, i, off + k, a.ne0);
    }
  }

  lemma MulMatNextPart(a: Mat, b: Mat, a': Mat, b': Mat, off: nat, k: nat, m: nat, n: nat)
    requires Piece(a, a', 0, off, k) && Piece(b, b', 0, off, k) && m < a.ne1 && n < b.ne1
    ensures Dot(a, b, m, n, off + k) == Dot(a, b, m, n, off) + Dot(a', b', m, n, a'.ne0)
  {
    DotSplits(a, b, a', b', m, n, off, k);
  }

  /** If both factors are cut along the axis that is summed over, the devices hold partial sums. */
  lemma {:induction false} MulMatPartial(a: Mat, b: Mat, pa: seq<Mat>, pb: seq<Mat>, ne: seq<nat>, m: nat, n: nat,
                                         out: seq<int>, j: nat)
    requires Pieces(a, pa, 0, ne) && Pieces(b, pb, 0, ne) && |out| == |ne| && j <= |ne| && m < a.ne1 && n < b.ne1
    requires forall i :: 0 <= i < |ne| ==> out[i] == Dot(pa[i], pb[i], m, n, pa[i].ne0)
    ensures Dot(a, b, m, n, Offset(ne, j)) == AllReduce.Sum(out, 0, j)
  {
    if j > 0 {
      MulMatPartial(a, b, pa, pb, ne, m, n, out, j - 1);
      assert PieceAt(a, pa, 0, ne, j - 1) && PieceAt(b, pb, 0, ne, j - 1);
      MulMatNextPart(a, b, pa[j - 1], pb[j - 1], Offset(ne, j - 1), ne[j - 1], m, n);
    }
  }

  /** Element (i0, i1) of a piece, in the coordinates of the whole. */
  function Whole0(axis: nat, off: nat, i0: nat): nat {
    if axis == 0 then off + i0 else i0
  }

  function Whole1(axis: nat, off: nat, i1: nat): nat {
    if axis == 0 then i1 else off + i1
  }

  lemma ElementwisePiece(f: seq<int> -> int, src: seq<Mat>, src': seq<Mat>, axis: nat, off: nat, n: nat)
    requires Shaped(Elementwise(f), src) && |src'| == |src| && axis <= 1
    requires forall k :: 0 <= k < |src| ==> Piece(src[k], src'[k], axis, off, n)
    ensures Piece(Apply(Elementwise(f), src), Apply(Elementwise(f), src'), axis, off, n)
  {
    var d0, d1 := if axis == 0 then n else src[0].ne0, if axis == 0 then src[0].ne1 else n;
    forall i0: nat, i1: nat | i0 < d0 && i1 < d1
      ensures Values(src', i0, i1) == Values(src, Whole0(axis, off, i0), Whole1(axis, off, i1))
    {
      forall k | 0 <= k < |src| ensures src'[k].at(i0, i1) == src[k].at(Whole0(axis, off, i0), Whole1(axis, off, i1)) {
        assert Piece(src[k], src'[k], axis, off, n);
      }
    }
    assert Piece(src[0], src'[0], axis, off, n);
  }

  lemma ElementwiseSame(f: seq<int> -> int, src: seq<Mat>, src': seq<Mat>)
    requires Shaped(Elementwise(f), src) && |src'| == |src| && forall k :: 0 <= k < |src| ==> Same(src[k], src'[k])
    ensures Same(Apply(Elementwise(f), src), Apply(Elementwise(f), src'))
  {
    forall i0: nat, i1: nat | i0 < src[0].ne0 && i1 < src[0].ne1 ensures Values(src', i0, i1) == Values(src, i0, i1) {
      forall k | 0 <= k < |src| ensures src'[k].at(i0, i1) == src[k].at(i0, i1) { assert Same(src[k], src'[k]); }
    }
    assert Same(src[0], src'[0]);
  }

  lemma RowPiece(r: seq<int> -> seq<int>, scalar: bool, a: Mat, a': Mat, off: nat, n: nat)
    requires Piece(a, a', 1, off, n)
    ensures Piece(Apply(PerRow(r, scalar), [a]), Apply(PerRow(r, scalar), [a']), 1, off, n)
  {
    forall i1: nat | i1 < n ensures Row(a', i1) == Row(a, off + i1) {}
  }

  lemma RowSame(r: seq<int> -> seq<int>, scalar: bool, a: Mat, a': Mat)
    requires Same(a, a')
    ensures Same(Apply(PerRow(r, scalar), [a]), Apply(PerRow(r, scalar), [a']))
  {
    forall i1: nat | i1 < a.ne1 ensures Row(a', i1) == Row(a, i1) {}
  }

  /** The repeated source is whole and has one entry along the axis, or is cut like the other. */
  ghost predicate RepeatedPiece(a: Mat, b: Mat, b': Mat, axis: nat, off: nat, n: nat) {
    (Same(b, b') && Extent(b, axis) == 1) || (Piece(b, b', axis, off, n) && Extent(a, axis) == Extent(b, axis))
  }

  lemma RemIsSmall(i: nat, n: nat)
    ensures n > 0 ==> Rem(i, n) < n
    ensures i < n ==> Rem(i, n) == i
    ensures Rem(i, 1) == 0
  {
  }

  lemma RepeatedAt(a: Mat, b: Mat, b': Mat, axis: nat, off: nat, n: nat, i0: nat, i1: nat)
    requires RepeatedPiece(a, b, b', axis, off, n) && b.ne0 > 0 && b.ne1 > 0 && axis <= 1 && off + n <= Extent(a, axis)
    requires if axis == 0 then i0 < n && i1 < a.ne1 else i0 < a.ne0 && i1 < n
    ensures b'.at(Rem(i0, b'.ne0), Rem(i1, b'.ne1))
        == b.at(Rem(Whole0(axis, off, i0), b.ne0), Rem(Whole1(axis, off, i1), b.ne1))
  {
    RemIsSmall(i0, b.ne0);
    RemIsSmall(i1, b.ne1);
    RemIsSmall(i0, b'.ne0);
    RemIsSmall(i1, b'.ne1);
    RemIsSmall(Whole0(axis, off, i0), b.ne0);
    RemIsSmall(Whole1(axis, off, i1), b.ne1);
  }

  lemma BroadcastPiece(g: (int, int) -> int, a: Mat, b: Mat, a': Mat, b': Mat, axis: nat, off: nat, n: nat)
    requires Shaped(Broadcast(g), [a, b]) && axis <= 1 && Piece(a, a', axis, off, n) && off + n <= Extent(a, axis)
    requires RepeatedPiece(a, b, b', axis, off, n)
    ensures Piece(Apply(Broadcast(g), [a, b]), Apply(Broadcast(g), [a', b']), axis, off, n)
  {
    var w, w' := Apply(Broadcast(g), [a, b]), Apply(Broadcast(g), [a', b']);
    var d0, d1 := if axis == 0 then n else a.ne0, if axis == 0 then a.ne1 else n;
    forall i0: nat, i1: nat | i0 < d0 && i1 < d1
      ensures w'.at(i0, i1) == w.at(Whole0(axis, off, i0), Whole1(axis, off, i1))
    {
      RepeatedAt(a, b, b', axis, off, n, i0, i1);
    }
  }

  lemma BroadcastSame(g: (int, int) -> int, a: Mat, b: Mat, a': Mat, b': Mat)
    requires Shaped(Broadcast(g), [a, b]) && Same(a, a') && Same(b, b')
    ensures Same(Apply(Broadcast(g), [a, b]), Apply(Broadcast(g), [a', b']))
  {
  }

  // ---- the rules are right

  /** All sources are spread over `n` devices as their states say; none is in parts. */
  ghost predicate AllHold(st: seq<State>, src: seq<Mat>, parts: seq<seq<Mat>>, n: nat) {
    && |st| == |src| == |parts| && (forall k :: 0 <= k < |parts| ==> |parts[k]| == n)
    && forall k :: 0 <= k < |st| ==> SourceHolds(st, src, parts, n, k)
  }

  ghost predicate SourceHolds(st: seq<State>, src: seq<Mat>, parts: seq<seq<Mat>>, n: nat, k: nat)
    requires k < |st| == |src| == |parts|
  {
    |parts[k]| == n && st[k] != Partial && Holds(st[k], src[k], parts[k])
  }

  lemma MulMatHolds(st: seq<State>, a: Mat, b: Mat, pa: seq<Mat>, pb: seq<Mat>, n: nat, outs: seq<Mat>)
    requires |st| == 2 && |pa| == |pb| == |outs| == n && a.ne0 == b.ne0 && MulMatRule(st[0], st[1]).Some?
    requires st[0] != Partial && st[1] != Partial && Holds(st[0], a, pa) && Holds(st[1], b, pb)
    requires forall j :: 0 <= j < n ==> outs[j] == Apply(MulMat, [pa[j], pb[j]])
    ensures Holds(MulMatRule(st[0], st[1]).value, Apply(MulMat, [a, b]), outs)
  {
    var full := Apply(MulMat, [a, b]);
    match (st[0], st[1])
    case (Mirrored, Mirrored) =>
      forall j | 0 <= j < n ensures Same(full, outs[j]) { MulMatMirrored(a, b, pa[j], pb[j]); }
    case (Split(_, ne), Mirrored) =>
      forall j | 0 <= j < n ensures PieceAt(full, outs, 0, ne, j) {
        assert PieceAt(a, pa, 1, ne, j);
        OffsetsGrow(ne, j + 1, |ne|);
        MulMatLeft(a, b, pa[j], pb[j], Offset(ne, j), ne[j]);
      }
    case (Mirrored, Split(_, ne)) =>
      forall j | 0 <= j < n ensures PieceAt(full, outs, 1, ne, j) {
        assert PieceAt(b, pb, 1, ne, j);
        OffsetsGrow(ne, j + 1, |ne|);
        MulMatRight(a, b, pa[j], pb[j], Offset(ne, j), ne[j]);
      }
    case (Split(_, ne), Split(_, _)) =>
      MulMatAddsUp(a, b, pa, pb, ne, outs);
  }

  lemma MulMatAddsUp(a: Mat, b: Mat, pa: seq<Mat>, pb: seq<Mat>, ne: seq<nat>, outs: seq<Mat>)
    requires a.ne0 == b.ne0 == Offset(ne, |ne|) && Pieces(a, pa, 0, ne) && Pieces(b, pb, 0, ne) && |outs| == |ne|
    requires forall j :: 0 <= j < |ne| ==> outs[j] == Apply(MulMat, [pa[j], pb[j]])
    ensures AddsUp(Apply(MulMat, [a, b]), outs)
  {
    var full := Apply(MulMat, [a, b]);
    forall j | 0 <= j < |ne| ensures outs[j].ne0 == full.ne0 && outs[j].ne1 == full.ne1 {
      assert PieceAt(a, pa, 0, ne, j) && PieceAt(b, pb, 0, ne, j);
    }
    forall m: nat, n: nat | m < full.ne0 && n < full.ne1
      ensures full.at(m, n) == AllReduce.Sum(Column(outs, m, n), 0, |outs|)
    {
      MulMatPartial(a, b, pa, pb, ne, m, n, Column(outs, m, n), |ne|);
    }
  }

  lemma ElementwiseHolds(f: seq<int> -> int, st: seq<State>, src: seq<Mat>, parts: seq<seq<Mat>>, n: nat)
    requires AllHold(st, src, parts, n) && Shaped(Elementwise(f), src) && Generic(st).Some?
    ensures Holds(st[0], Apply(Elementwise(f), src), ApplyAll(Elementwise(f), parts, n))
  {
    var full, outs := Apply(Elementwise(f), src), ApplyAll(Elementwise(f), parts, n);
    assert SourceHolds(st, src, parts, n, 0);
    match st[0]
    case Mirrored =>
      forall j | 0 <= j < n ensures Same(full, outs[j]) {
        forall k | 0 <= k < |src|
          ensures Same(src[k], OnDevice(parts, j)[k])
        {
          assert SourceHolds(st, src, parts, n, k);
        }
        ElementwiseSame(f, src, OnDevice(parts, j));
      }
    case Split(axis, ne) =>
      forall j | 0 <= j < n ensures PieceAt(full, outs, axis, ne, j) {
        forall k | 0 <= k < |src| ensures Piece(src[k], OnDevice(parts, j)[k], axis, Offset(ne, j), ne[j]) {
          assert SourceHolds(st, src, parts, n, k) && PieceAt(src[k], parts[k], axis, ne, j);
        }
        ElementwisePiece(f, src, OnDevice(parts, j), axis, Offset(ne, j), ne[j]);
      }
  }

  lemma RowHolds(r: seq<int> -> seq<int>, scalar: bool, s: State, a: Mat, pa: seq<Mat>, outs: seq<Mat>)
    requires s != Partial && Holds(s, a, pa) && (s.Split? ==> s.axis != 0) && |outs| == |pa|
    requires forall j :: 0 <= j < |pa| ==> outs[j] == Apply(PerRow(r, scalar), [pa[j]])
    ensures Holds(s, Apply(PerRow(r, scalar), [a]), outs)
  {
    var full := Apply(PerRow(r, scalar), [a]);
    match s
    case Mirrored => forall j | 0 <= j < |pa| ensures Same(full, outs[j]) { RowSame(r, scalar, a, pa[j]); }
    case Split(axis, ne) =>
      forall j | 0 <= j < |pa| ensures PieceAt(full, outs, axis, ne, j) {
        assert PieceAt(a, pa, axis, ne, j);
        RowPiece(r, scalar, a, pa[j], Offset(ne, j), ne[j]);
      }
  }

  lemma BroadcastHolds(g: (int, int) -> int, st: seq<State>, a: Mat, b: Mat, pa: seq<Mat>, pb: seq<Mat>, outs: seq<Mat>)
    requires |st| == 2 && Shaped(Broadcast(g), [a, b]) && |pa| == |pb| == |outs| && st[0] != Partial
    requires Holds(st[0], a, pa) && Holds(st[1], b, pb)
    requires st[0] == st[1] || (st[0].Split? && st[1] == Mirrored && Extent(b, st[0].axis) == 1)
    requires forall j :: 0 <= j < |pa| ==> outs[j] == Apply(Broadcast(g), [pa[j], pb[j]])
    ensures Holds(st[0], Apply(Broadcast(g), [a, b]), outs)
  {
    var full := Apply(Broadcast(g), [a, b]);
    match st[0]
    case Mirrored => forall j | 0 <= j < |pa| ensures Same(full, outs[j]) { BroadcastSame(g, a, b, pa[j], pb[j]); }
    case Split(axis, ne) =>
      forall j | 0 <= j < |pa| ensures PieceAt(full, outs, axis, ne, j) {
        assert PieceAt(a, pa, axis, ne, j);
        if st[0] == st[1] { assert PieceAt(b, pb, axis, ne, j); }
        OffsetsGrow(ne, j + 1, |ne|);
        BroadcastPiece(g, a, b, pa[j], pb[j], axis, Offset(ne, j), ne[j]);
      }
  }

  lemma RuleHolds(op: Op, st: seq<State>, src: seq<Mat>, parts: seq<seq<Mat>>, n: nat)
    requires AllHold(st, src, parts, n) && Shaped(op, src) && Rule(op, st, src).Some?
    ensures Holds(Rule(op, st, src).value, Apply(op, src), ApplyAll(op, parts, n))
  {
    var outs := ApplyAll(op, parts, n);
    assert SourceHolds(st, src, parts, n, 0);
    match op
    case MulMat =>
      assert SourceHolds(st, src, parts, n, 1) && src == [src[0], src[1]];
      forall j | 0 <= j < n
        ensures outs[j] == Apply(op, [parts[0][j], parts[1][j]])
      {
        assert OnDevice(parts, j) == [parts[0][j], parts[1][j]];
      }
      MulMatHolds(st, src[0], src[1], parts[0], parts[1], n, outs);
    case Elementwise(f) =>
      ElementwiseHolds(f, st, src, parts, n);
    case Broadcast(g) =>
      assert SourceHolds(st, src, parts, n, 1) && src == [src[0], src[1]];
      forall j | 0 <= j < n
        ensures outs[j] == Apply(op, [parts[0][j], parts[1][j]])
      {
        assert OnDevice(parts, j) == [parts[0][j], parts[1][j]];
      }
      BroadcastHolds(g, st, src[0], src[1], parts[0], parts[1], outs);
    case PerRow(r, scalar) =>
      assert src == [src[0]];
      forall j | 0 <= j < n ensures outs[j] == Apply(op, [parts[0][j]]) { assert OnDevice(parts, j) == [parts[0][j]]; }
      RowHolds(r, scalar, st[0], src[0], parts[0], outs);
  }

  lemma SameRatio(ne: seq<nat>, n: nat)
    requires Offset(ne, |ne|) == n
    ensures TakeOver(ne, n, n) == Some(ne)
  {
    forall j | 0 <= j < |ne| ensures ComesOut(ne[j], n, n) && Scaled(ne[j], n, n) == ne[j] {
      OffsetsGrow(ne, j + 1, |ne|);
      if n > 0 { QuotientIs(ne[j] * n, n, ne[j], 0); }
    }
    assert seq(|ne|, j requires 0 <= j < |ne| => Scaled(ne[j], n, n)) == ne;
  }

  /** These operations keep the extent of the axis, so the sizes are taken over as they are. */
  lemma InferIsRule(op: Op, st: seq<State>, src: seq<Mat>, parts: seq<seq<Mat>>, n: nat)
    requires AllHold(st, src, parts, n) && Shaped(op, src) && Infer(op, st, src).Some?
    ensures Infer(op, st, src) == Rule(op, st, src)
  {
    var r := Rule(op, st, src).value;
    if r.Split? {
      var k := FirstSplit(st, 0);
      assert SourceHolds(st, src, parts, n, k);
      if op.MulMat? || op.Broadcast? { assert SourceHolds(st, src, parts, n, 1); }
      assert Extent(src[k], st[k].axis) == Extent(Apply(op, src), r.axis) && st[k].ne == r.ne;
      SameRatio(r.ne, Extent(src[k], st[k].axis));
    }
  }

  // ---- sources in parts

  /** The entries that every device has in full stay, the others are added. */
  function Blend(x: seq<int>, y: seq<int>, whole: seq<bool>): (z: seq<int>)
    requires |x| == |y| == |whole|
    ensures |z| == |x|
  {
    seq(|x|, k requires 0 <= k < |x| => if whole[k] then x[k] else x[k] + y[k])
  }

  /** Only the entries that every device has in full. */
  function Kept(x: seq<int>, whole: seq<bool>): (z: seq<int>)
    requires |x| == |whole|
    ensures |z| == |x|
  {
    seq(|x|, k requires 0 <= k < |x| => if whole[k] then x[k] else 0)
  }

  predicate Agree(x: seq<int>, y: seq<int>, whole: seq<bool>)
    requires |x| == |y| == |whole|
  {
    forall k :: 0 <= k < |x| && whole[k] ==> x[k] == y[k]
  }

  /** `f` is additive in the entries that are in parts, whatever the others are. */
  ghost predicate AdditiveIn(f: seq<int> -> int, whole: seq<bool>) {
    forall x: seq<int>, y: seq<int> :: AdditiveAt(f, whole, x, y)
  }

  predicate AdditiveAt(f: seq<int> -> int, whole: seq<bool>, x: seq<int>, y: seq<int>) {
    |x| == |y| == |whole| && Agree(x, y, whole) ==> f(Blend(x, y, whole)) == f(x) + f(y)
  }

  /** Entry `k` on every device. */
  function Entries(vs: seq<seq<int>>, k: nat): (col: seq<int>)
    ensures |col| == |vs|
  {
    seq(|vs|, j requires 0 <= j < |vs| => Item(vs[j], k))
  }

  /** The devices have `vs`: in full where it says so, and in parts of `x` elsewhere. */
  ghost predicate SharedOut(x: seq<int>, vs: seq<seq<int>>, whole: seq<bool>) {
    && |x| == |whole| && (forall j :: 0 <= j < |vs| ==> |vs[j]| == |x|)
    && forall k :: 0 <= k < |x| ==> EntryShared(x, vs, whole, k)
  }

  ghost predicate EntryShared(x: seq<int>, vs: seq<seq<int>>, whole: seq<bool>, k: nat)
    requires k < |x| == |whole| && forall j :: 0 <= j < |vs| ==> |vs[j]| == |x|
  {
    if whole[k] then forall j :: 0 <= j < |vs| ==> vs[j][k] == x[k]
    else x[k] == AllReduce.Sum(Entries(vs, k), 0, |vs|)
  }

  /** What the first `j` devices have, taken together. */
  function Together(vs: seq<seq<int>>, x: seq<int>, whole: seq<bool>, j: nat): (r: seq<int>)
    requires j <= |vs| && |x| == |whole| && forall i :: 0 <= i < |vs| ==> |vs[i]| == |x|
    ensures |r| == |x|
  {
    if j == 0 then Kept(x, whole) else Blend(Together(vs, x, whole, j - 1), vs[j - 1], whole)
  }

  lemma {:induction false} TogetherAt(vs: seq<seq<int>>, x: seq<int>, whole: seq<bool>, k: nat, j: nat)
    requires j <= |vs| && |x| == |whole| && k < |x| && forall i :: 0 <= i < |vs| ==> |vs[i]| == |x|
    ensures Together(vs, x, whole, j)[k] == if whole[k] then x[k] else AllReduce.Sum(Entries(vs, k), 0, j)
  {
    if j > 0 { TogetherAt(vs, x, whole, k, j - 1); }
  }

  lemma {:induction false} AdditiveSum(f: seq<int> -> int, vs: seq<seq<int>>, x: seq<int>, whole: seq<bool>,
                                       w: seq<int>, j: nat)
    requires AdditiveIn(f, whole) && SharedOut(x, vs, whole) && |vs| == |w| && j <= |vs|
    requires forall i :: 0 <= i < |vs| ==> w[i] == f(vs[i])
    ensures f(Together(vs, x, whole, j)) == AllReduce.Sum(w, 0, j)
  {
    if j == 0 {
      var z := Kept(x, whole);
      assert Blend(z, z, whole) == z && AdditiveAt(f, whole, z, z);
    } else {
      AdditiveSum(f, vs, x, whole, w, j - 1);
      var t := Together(vs, x, whole, j - 1);
      forall k | 0 <= k < |x| && whole[k] ensures t[k] == vs[j - 1][k] {
        TogetherAt(vs, x, whole, k, j - 1);
        assert EntryShared(x, vs, whole, k);
      }
      assert AdditiveAt(f, whole, t, vs[j - 1]);
    }
  }

  /** An additive function of what is shared out is the sum of what the devices compute. */
  lemma SharedSum(f: seq<int> -> int, vs: seq<seq<int>>, x: seq<int>, whole: seq<bool>, w: seq<int>)
    requires AdditiveIn(f, whole) && SharedOut(x, vs, whole) && |vs| == |w|
    requires forall i :: 0 <= i < |vs| ==> w[i] == f(vs[i])
    ensures f(x) == AllReduce.Sum(w, 0, |w|)
  {
    AdditiveSum(f, vs, x, whole, w, |vs|);
    forall k | 0 <= k < |x| ensures Together(vs, x, whole, |vs|)[k] == x[k] {
      TogetherAt(vs, x, whole, k, |vs|);
      assert EntryShared(x, vs, whole, k);
    }
    assert Together(vs, x, whole, |vs|) == x;
  }

  // ---- operations on sources in parts

  /** Every device has the sources that are whole, and parts of the others. */
  ghost predicate Spread(src: seq<Mat>, parts: seq<seq<Mat>>, whole: seq<bool>, n: nat) {
    |src| == |parts| == |whole| && forall k :: 0 <= k < |src| ==> SpreadAt(src, parts, whole, n, k)
  }

  ghost predicate SpreadAt(src: seq<Mat>, parts: seq<seq<Mat>>, whole: seq<bool>, n: nat, k: nat)
    requires k < |src| == |parts| == |whole|
  {
    |parts[k]| == n && Holds(if whole[k] then Mirrored else Partial, src[k], parts[k])
  }

  /** `g` of a pair, and entry `i` of a row. */
  function Paired(g: (int, int) -> int): seq<int> -> int {
    (v: seq<int>) => if |v| == 2 then g(v[0], v[1]) else 0
  }

  function Entry(r: seq<int> -> seq<int>, i: nat): seq<int> -> int {
    (v: seq<int>) => Item(r(v), i)
  }

  function All(b: bool, m: nat): (whole: seq<bool>) {
    seq(m, _ => b)
  }

  /** Operations that take sources in parts, and how many. */
  predicate TakesParts(op: Op, m: nat) {
    match op
    case MulMat => false
    case Elementwise(_) => m > 0
    case Broadcast(_) => m == 2
    case PerRow(_, _) => m == 1
  }

  /** The operation is additive in the sources that are in parts, whatever the others are; the rules pass
      no parts on to a product. */
  ghost predicate AdditiveOp(op: Op, whole: seq<bool>)
    requires TakesParts(op, |whole|)
  {
    match op
    case Elementwise(f) => AdditiveIn(f, whole)
    case Broadcast(g) => AdditiveIn(Paired(g), whole)
    case PerRow(r, scalar) => AdditiveRows(r, scalar, whole[0])
  }

  /** Every entry of the result is additive in the entries of the row, or none of them is in parts. */
  ghost predicate AdditiveRows(r: seq<int> -> seq<int>, scalar: bool, whole: bool) {
    forall i: nat, l: nat :: i < (if scalar then 1 else l) ==> AdditiveIn(Entry(r, i), All(whole, l))
  }

  lemma ValuesAreShared(src: seq<Mat>, parts: seq<seq<Mat>>, whole: seq<bool>, n: nat, i0: nat, i1: nat)
    requires Spread(src, parts, whole, n) && n > 0
    requires forall k :: 0 <= k < |src| ==> i0 < src[k].ne0 && i1 < src[k].ne1
    ensures (forall k :: 0 <= k < |parts| ==> |parts[k]| == n)
    ensures SharedOut(Values(src, i0, i1), seq(n, j requires 0 <= j < n => Values(OnDevice(parts, j), i0, i1)), whole)
  {
    forall k | 0 <= k < |parts| ensures |parts[k]| == n { assert SpreadAt(src, parts, whole, n, k); }
    var x, vs := Values(src, i0, i1), seq(n, j requires 0 <= j < n => Values(OnDevice(parts, j), i0, i1));
    forall k | 0 <= k < |x| ensures EntryShared(x, vs, whole, k) {
      assert SpreadAt(src, parts, whole, n, k);
      assert Entries(vs, k) == Column(parts[k], i0, i1);
    }
  }

  lemma ElementwiseKeepsParts(f: seq<int> -> int, src: seq<Mat>, parts: seq<seq<Mat>>, whole: seq<bool>, n: nat)
    requires Shaped(Elementwise(f), src) && Spread(src, parts, whole, n) && n > 0 && AdditiveIn(f, whole)
    requires forall k :: 0 <= k < |parts| ==> |parts[k]| == n
    ensures AddsUp(Apply(Elementwise(f), src), ApplyAll(Elementwise(f), parts, n))
  {
    var out, outs := Apply(Elementwise(f), src), ApplyAll(Elementwise(f), parts, n);
    assert SpreadAt(src, parts, whole, n, 0);
    forall i0: nat, i1: nat | i0 < out.ne0 && i1 < out.ne1
      ensures out.at(i0, i1) == AllReduce.Sum(Column(outs, i0, i1), 0, n)
    {
      ValuesAreShared(src, parts, whole, n, i0, i1);
      var vs := seq(n, j requires 0 <= j < n => Values(OnDevice(parts, j), i0, i1));
      SharedSum(f, vs, Values(src, i0, i1), whole, Column(outs, i0, i1));
    }
  }

  /** Two sources, the second of which is repeated. */
  lemma BroadcastKeepsParts(g: (int, int) -> int, a: Mat, b: Mat, pa: seq<Mat>, pb: seq<Mat>, whole: seq<bool>,
                            outs: seq<Mat>)
    requires Shaped(Broadcast(g), [a, b]) && |whole| == 2 && AdditiveIn(Paired(g), whole) && |outs| > 0
    requires Spread([a, b], [pa, pb], whole, |outs|)
    requires |pa| == |pb| == |outs| && forall j :: 0 <= j < |pa| ==> outs[j] == Apply(Broadcast(g), [pa[j], pb[j]])
    ensures AddsUp(Apply(Broadcast(g), [a, b]), outs)
  {
    var full := Apply(Broadcast(g), [a, b]);
    assert SpreadAt([a, b], [pa, pb], whole, |outs|, 0) && SpreadAt([a, b], [pa, pb], whole, |outs|, 1);
    forall i0: nat, i1: nat | i0 < full.ne0 && i1 < full.ne1
      ensures full.at(i0, i1) == AllReduce.Sum(Column(outs, i0, i1), 0, |outs|)
    {
      RemIsSmall(i0, b.ne0);
      RemIsSmall(i1, b.ne1);
      PairsAddUp(g, a, b, pa, pb, whole, i0, i1, Rem(i0, b.ne0), Rem(i1, b.ne1), Column(outs, i0, i1));
    }
  }

  lemma PairsAddUp(g: (int, int) -> int, a: Mat, b: Mat, pa: seq<Mat>, pb: seq<Mat>, whole: seq<bool>, i0: nat,
                   i1: nat, k0: nat, k1: nat, out: seq<int>)
    requires |whole| == 2 && AdditiveIn(Paired(g), whole) && |pa| == |pb| == |out|
    requires Holds(if whole[0] then Mirrored else Partial, a, pa)
    requires Holds(if whole[1] then Mirrored else Partial, b, pb)
    requires i0 < a.ne0 && i1 < a.ne1 && k0 < b.ne0 && k1 < b.ne1
    requires forall j :: 0 <= j < |pa| ==> out[j] == g(pa[j].at(i0, i1), pb[j].at(k0, k1))
    ensures g(a.at(i0, i1), b.at(k0, k1)) == AllReduce.Sum(out, 0, |out|)
  {
    var n, x := |pa|, [a.at(i0, i1), b.at(k0, k1)];
    var vs := seq(n, j requires 0 <= j < n => [pa[j].at(i0, i1), pb[j].at(k0, k1)]);
    assert Entries(vs, 0) == Column(pa, i0, i1) && Entries(vs, 1) == Column(pb, k0, k1);
    assert EntryShared(x, vs, whole, 0) && EntryShared(x, vs, whole, 1);
    SharedSum(Paired(g), vs, x, whole, out);
  }

  lemma RowKeepsParts(r: seq<int> -> seq<int>, scalar: bool, a: Mat, pa: seq<Mat>, whole: seq<bool>, outs: seq<Mat>)
    requires |whole| == 1 && AdditiveOp(PerRow(r, scalar), whole) && |outs| == |pa|
    requires Holds(if whole[0] then Mirrored else Partial, a, pa)
    requires forall j :: 0 <= j < |pa| ==> outs[j] == Apply(PerRow(r, scalar), [pa[j]])
    ensures AddsUp(Apply(PerRow(r, scalar), [a]), outs)
  {
    var full := Apply(PerRow(r, scalar), [a]);
    forall i0: nat, i1: nat | i0 < full.ne0 && i1 < full.ne1
      ensures full.at(i0, i1) == AllReduce.Sum(Column(outs, i0, i1), 0, |outs|)
    {
      RowsAreShared(a, pa, whole[0], i1);
      SharedSum(Entry(r, i0), RowsOf(pa, a.ne0, i1), Row(a, i1), All(whole[0], a.ne0), Column(outs, i0, i1));
    }
  }

  /** Row `i1` of what each device holds. */
  function RowsOf(parts: seq<Mat>, m: nat, i1: nat): (rows: seq<seq<int>>)
    requires forall j :: 0 <= j < |parts| ==> parts[j].ne0 == m
    ensures |rows| == |parts| && forall j :: 0 <= j < |rows| ==> rows[j] == Row(parts[j], i1) && |rows[j]| == m
  {
    seq(|parts|, j requires 0 <= j < |parts| => Row(parts[j], i1))
  }

  lemma RowsAreShared(a: Mat, pa: seq<Mat>, whole: bool, i1: nat)
    requires Holds(if whole then Mirrored else Partial, a, pa) && i1 < a.ne1
    ensures forall j :: 0 <= j < |pa| ==> pa[j].ne0 == a.ne0
    ensures SharedOut(Row(a, i1), RowsOf(pa, a.ne0, i1), All(whole, a.ne0))
  {
    var x, vs := Row(a, i1), RowsOf(pa, a.ne0, i1);
    forall k | 0 <= k < |x| ensures EntryShared(x, vs, All(whole, a.ne0), k) {
      assert Entries(vs, k) == Column(pa, k, i1);
    }
  }

  /** An additive operation on sources in parts gives a result in parts. */
  lemma AdditiveOpKeepsParts(op: Op, src: seq<Mat>, parts: seq<seq<Mat>>, whole: seq<bool>, n: nat)
    requires Shaped(op, src) && Spread(src, parts, whole, n) && n > 0
    requires TakesParts(op, |whole|) && AdditiveOp(op, whole)
    requires forall k :: 0 <= k < |parts| ==> |parts[k]| == n
    ensures AddsUp(Apply(op, src), ApplyAll(op, parts, n))
  {
    var outs := ApplyAll(op, parts, n);
    assert SpreadAt(src, parts, whole, n, 0);
    match op
    case Elementwise(f) => ElementwiseKeepsParts(f, src, parts, whole, n);
    case Broadcast(g) =>
      assert src == [src[0], src[1]] && parts == [parts[0], parts[1]];
      forall j | 0 <= j < n ensures outs[j] == Apply(op, [parts[0][j], parts[1][j]]) {
        assert OnDevice(parts, j) == [parts[0][j], parts[1][j]];
      }
      BroadcastKeepsParts(g, src[0], src[1], parts[0], parts[1], whole, outs);
    case PerRow(r, scalar) =>
      assert src == [src[0]];
      forall j | 0 <= j < n ensures outs[j] == Apply(op, [parts[0][j]]) { assert OnDevice(parts, j) == [parts[0][j]]; }
      RowKeepsParts(r, scalar, src[0], parts[0], whole, outs);
  }

  // ---- whole programs

  datatype Instr = Instr(op: Op, src: seq<nat>)

  /** The tensors so far: their values, the states that their readers take them to be in, what the
      devices hold of them, and whether they have been all-reduced. */
  datatype Config = Config(full: seq<Mat>, st: seq<State>, parts: seq<seq<Mat>>, reduced: seq<bool>) {
    predicate Complete(n: nat) {
      |full| == |st| == |parts| == |reduced| && forall k :: 0 <= k < |parts| ==> |parts[k]| == n
    }
  }

  /** What has been all-reduced is held by every one of the `n` devices, and everything else as its state
      says. */
  ghost predicate Good(c: Config, n: nat) {
    c.Complete(n) && forall k :: 0 <= k < |c.st| ==> GoodAt(c, k)
  }

  ghost predicate GoodAt(c: Config, k: nat)
    requires k < |c.st| == |c.full| == |c.parts| == |c.reduced|
  {
    if c.reduced[k] then !c.st[k].Split? && Holds(Mirrored, c.full[k], c.parts[k])
    else Holds(c.st[k], c.full[k], c.parts[k])
  }

  predicate InScope(c: Config, i: Instr) {
    forall k :: 0 <= k < |i.src| ==> i.src[k] < |c.st|
  }

  /** On several devices, what still counts as in parts, whether it has been all-reduced or not, is read by
      operations that are additive in the sources that have not. */
  ghost predicate ReadsPartsRight(c: Config, i: Instr, n: nat) {
    c.Complete(n) && InScope(c, i) && Partial in Pick(c.st, i.src) && n > 1 && TakesParts(i.op, |i.src|) ==>
      AdditiveOp(i.op, Pick(c.reduced, i.src))
  }

  function Pick<T>(s: seq<T>, src: seq<nat>): (r: seq<T>)
    requires forall k :: 0 <= k < |src| ==> src[k] < |s|
    ensures |r| == |src| && forall k :: 0 <= k < |r| ==> r[k] == s[src[k]]
  {
    seq(|src|, k requires 0 <= k < |src| => s[src[k]])
  }

  /** What device `j` has after an all-reduce. */
  function Reduce(parts: seq<Mat>): (r: seq<Mat>)
    ensures |r| == |parts|
  {
    seq(|parts|, j requires 0 <= j < |parts| =>
          Mat(parts[j].ne0, parts[j].ne1,
              (i0: nat, i1: nat) => Item(AllReduce.Reduced(Column(parts, i0, i1), 1), j)))
  }

  /** The state that readers take a result to be in: only for a product they are told that it will have
      been all-reduced. */
  function ReadAs(op: Op, s: State): State {
    if op.MulMat? && s == Partial then Mirrored else s
  }

  /** One more tensor: a result in parts is all-reduced if `reduce`. */
  function Step(c: Config, i: Instr, n: nat, reduce: bool): Option<Config> {
    if !c.Complete(n) || !InScope(c, i) || !Shaped(i.op, Pick(c.full, i.src)) then None
    else
      var outs := ApplyAll(i.op, Pick(c.parts, i.src), n);
      match Infer(i.op, Pick(c.st, i.src), Pick(c.full, i.src))
      case None => None
      case Some(s) =>
        var r := s == Partial && reduce;
        Some(Config(
          c.full + [Apply(i.op, Pick(c.full, i.src))], c.st + [ReadAs(i.op, s)],
          c.parts + [if r then Reduce(outs) else outs], c.reduced + [r]))
  }

  /** The first `k` instructions. What the last one of the program leaves in parts is not reduced. */
  function Run(c: Config, program: seq<Instr>, n: nat, k: nat): Option<Config>
    requires k <= |program|
  {
    if k == 0 then Some(c)
    else
      match Run(c, program, n, k - 1)
      case None => None
      case Some(u) => Step(u, program[k - 1], n, k < |program|)
  }

  /** After an all-reduce every device has the tensor exactly if it was in parts before. */
  lemma ReduceIsMirrored(full: Mat, parts: seq<Mat>)
    requires |parts| > 0 && AllReduce.PowerOfTwo(|parts|)
    ensures Holds(Mirrored, full, Reduce(parts)) <==> AddsUp(full, parts)
  {
    forall j: nat, i0: nat, i1: nat | j < |parts|
      ensures Reduce(parts)[j].at(i0, i1) == AllReduce.Sum(Column(parts, i0, i1), 0, |parts|)
    {
      AllReduce.PowerOfTwoAgrees(Column(parts, i0, i1), j);
    }
    if Holds(Mirrored, full, Reduce(parts)) {
      forall j | 0 <= j < |parts| ensures parts[j].ne0 == full.ne0 && parts[j].ne1 == full.ne1 {
        assert Same(full, Reduce(parts)[j]);
      }
      assert Same(full, Reduce(parts)[0]);
    }
  }

  /** A single part is everything. */
  lemma OnePartIsAll(full: Mat, parts: seq<Mat>)
    requires AddsUp(full, parts) && |parts| == 1
    ensures Holds(Mirrored, full, parts)
  {
    forall i0: nat, i1: nat | i0 < full.ne0 && i1 < full.ne1 ensures full.at(i0, i1) == parts[0].at(i0, i1) {
      assert AllReduce.Sum(Column(parts, i0, i1), 0, 1)
          == AllReduce.Sum(Column(parts, i0, i1), 0, 0) + Column(parts, i0, i1)[0];
    }
  }

  /** With one device nothing can go wrong. */
  lemma OneDeviceKeepsParts(op: Op, src: seq<Mat>, parts: seq<seq<Mat>>, whole: seq<bool>)
    requires Shaped(op, src) && Spread(src, parts, whole, 1) && TakesParts(op, |whole|)
    requires forall k :: 0 <= k < |parts| ==> |parts[k]| == 1
    ensures AddsUp(Apply(op, src), ApplyAll(op, parts, 1))
  {
    var dev, outs := OnDevice(parts, 0), ApplyAll(op, parts, 1);
    forall k | 0 <= k < |src| ensures Same(src[k], dev[k]) {
      assert SpreadAt(src, parts, whole, 1, k);
      if !whole[k] { OnePartIsAll(src[k], parts[k]); }
    }
    match op {
      case Elementwise(f) => ElementwiseSame(f, src, dev);
      case Broadcast(g) =>
        assert src == [src[0], src[1]] && dev == [dev[0], dev[1]];
        BroadcastSame(g, src[0], src[1], dev[0], dev[1]);
      case PerRow(r, scalar) =>
        assert src == [src[0]] && dev == [dev[0]];
        RowSame(r, scalar, src[0], dev[0]);
    }
    AllIsOnePart(Apply(op, src), outs);
  }

  lemma AllIsOnePart(full: Mat, parts: seq<Mat>)
    requires |parts| == 1 && Same(full, parts[0])
    ensures AddsUp(full, parts)
  {
    forall i0: nat, i1: nat | i0 < full.ne0 && i1 < full.ne1
      ensures full.at(i0, i1) == AllReduce.Sum(Column(parts, i0, i1), 0, 1)
    {
      assert AllReduce.Sum(Column(parts, i0, i1), 0, 1)
          == AllReduce.Sum(Column(parts, i0, i1), 0, 0) + Column(parts, i0, i1)[0];
    }
  }

  /** The rules pass parts on only if all sources count as in parts. */
  lemma PartsComeTogether(op: Op, st: seq<State>, src: seq<Mat>)
    requires |st| == |src| && Shaped(op, src) && Infer(op, st, src).Some? && Partial in st
    ensures Infer(op, st, src) == Some(Partial) && TakesParts(op, |st|)
    ensures forall k :: 0 <= k < |st| ==> st[k] == Partial
  {
  }

  /** The result of an instruction is spread as the rules say, before any all-reduce. */
  lemma ResultHolds(c: Config, i: Instr, n: nat)
    requires Good(c, n) && n > 0 && Step(c, i, n, true).Some? && ReadsPartsRight(c, i, n)
    ensures var st, src, parts := Pick(c.st, i.src), Pick(c.full, i.src), Pick(c.parts, i.src);
            Holds(Infer(i.op, st, src).value, Apply(i.op, src), ApplyAll(i.op, parts, n))
  {
    var st, src, parts := Pick(c.st, i.src), Pick(c.full, i.src), Pick(c.parts, i.src);
    var whole := Pick(c.reduced, i.src);
    if Partial in st {
      PartsComeTogether(i.op, st, src);
      forall k | 0 <= k < |st| ensures SpreadAt(src, parts, whole, n, k) { assert GoodAt(c, i.src[k]); }
      if n == 1 { OneDeviceKeepsParts(i.op, src, parts, whole); }
      else { AdditiveOpKeepsParts(i.op, src, parts, whole, n); }
    } else {
      forall k | 0 <= k < |st| ensures SourceHolds(st, src, parts, n, k) { assert GoodAt(c, i.src[k]); }
      InferIsRule(i.op, st, src, parts, n);
      RuleHolds(i.op, st, src, parts, n);
    }
  }

  /** The instruction is a product that leaves parts. */
  predicate ProductInParts(c: Config, i: Instr, n: nat) {
    && c.Complete(n) && InScope(c, i) && i.op.MulMat? && Shaped(i.op, Pick(c.full, i.src))
    && Infer(i.op, Pick(c.st, i.src), Pick(c.full, i.src)) == Some(Partial)
  }

  lemma StepIsGood(c: Config, i: Instr, n: nat, reduce: bool)
    requires Good(c, n) && n > 0 && AllReduce.PowerOfTwo(n) && Step(c, i, n, reduce).Some?
    requires ReadsPartsRight(c, i, n) && (reduce || n == 1 || !ProductInParts(c, i, n))
    ensures Good(Step(c, i, n, reduce).value, n)
  {
    var st, src, parts := Pick(c.st, i.src), Pick(c.full, i.src), Pick(c.parts, i.src);
    ResultHolds(c, i, n);
    var s, outs := Infer(i.op, st, src).value, ApplyAll(i.op, parts, n);
    if s == Partial {
      ReduceIsMirrored(Apply(i.op, src), outs);
      if n == 1 { OnePartIsAll(Apply(i.op, src), outs); }
    }
    var d := Step(c, i, n, reduce).value;
    forall k | 0 <= k < |d.st| ensures GoodAt(d, k) {
      if k < |c.st| { assert GoodAt(c, k); }
    }
  }

  /** Instruction `k` reads what it finds at that point of the program right. */
  ghost predicate ReadsRightAt(c: Config, program: seq<Instr>, n: nat, k: nat)
    requires k < |program|
  {
    var u := Run(c, program, n, k);
    u.Some? ==> ReadsPartsRight(u.value, program[k], n)
  }

  /** At every point of every program that the rules accept, recombining what the devices hold gives what a
      single device would have computed, if whatever still counts as in parts is read by operations that
      are additive in those sources that have not been all-reduced yet; only a product that the last
      instruction leaves in parts on several devices is excepted. */
  lemma {:induction false} ShardingPreservesMeaning(c: Config, program: seq<Instr>, n: nat, k: nat)
    requires Good(c, n) && n > 0 && AllReduce.PowerOfTwo(n) && k <= |program| && Run(c, program, n, k).Some?
    requires forall m :: 0 <= m < k ==> ReadsRightAt(c, program, n, m)
    requires 0 < k == |program| && n > 1 ==> !ProductInParts(Run(c, program, n, k - 1).value, program[k - 1], n)
    ensures Good(Run(c, program, n, k).value, n)
  {
    if k > 0 {
      var i, u := program[k - 1], Run(c, program, n, k - 1).value;
      ShardingPreservesMeaning(c, program, n, k - 1);
      assert ReadsRightAt(c, program, n, k - 1);
      StepIsGood(u, i, n, k < |program|);
    }
  }

  // ---- the last result

  ghost predicate SameShapes(a: seq<Mat>, b: seq<Mat>) {
    |a| == |b| && forall k :: 0 <= k < |a| ==> a[k].ne0 == b[k].ne0 && a[k].ne1 == b[k].ne1
  }

  /** The operation as the last one of a program, on sources of given shapes and states: whatever the
      values of the sources are, every device has the result. */
  ghost predicate AlwaysShared(op: Op, st: seq<State>, shapes: seq<Mat>, n: nat) {
    forall src: seq<Mat>, parts: seq<seq<Mat>> :: SharedAt(op, st, shapes, n, src, parts)
  }

  ghost predicate SharedAt(op: Op, st: seq<State>, shapes: seq<Mat>, n: nat, src: seq<Mat>, parts: seq<seq<Mat>>) {
    SameShapes(src, shapes) && AllHold(st, src, parts, n) ==> Holds(Mirrored, Apply(op, src), ApplyAll(op, parts, n))
  }

  /** A matrix of ones. */
  function Ones(ne0: nat, ne1: nat): Mat {
    Mat(ne0, ne1, (i0: nat, i1: nat) => 1)
  }

  lemma {:induction false} DotOfOnes(a: Mat, b: Mat, m: nat, n: nat, k: nat)
    requires forall i: nat :: i < k ==> a.at(i, m) == 1 && b.at(i, n) == 1
    ensures Dot(a, b, m, n, k) == k
  {
    if k > 0 { DotOfOnes(a, b, m, n, k - 1); }
  }

  /** What the devices have of a matrix of ones that is cut along axis 0. */
  function OnesParts(ne: seq<nat>, ne1: nat): (parts: seq<Mat>)
    ensures |parts| == |ne|
  {
    seq(|ne|, j requires 0 <= j < |ne| => Ones(ne[j], ne1))
  }

  lemma OnesAreCut(ne: seq<nat>, ne1: nat)
    ensures Pieces(Ones(Offset(ne, |ne|), ne1), OnesParts(ne, ne1), 0, ne)
  {
    forall j | 0 <= j < |ne| ensures PieceAt(Ones(Offset(ne, |ne|), ne1), OnesParts(ne, ne1), 0, ne, j) {
      OffsetsGrow(ne, j + 1, |ne|);
    }
  }

  /** With several devices, one of them has less than everything. */
  lemma SomebodyHasLess(ne: seq<nat>) returns (j: nat)
    requires |ne| > 1 && Offset(ne, |ne|) > 0
    ensures j < |ne| && ne[j] < Offset(ne, |ne|)
  {
    if ne[0] < Offset(ne, |ne|) { return 0; }
    OffsetsGrow(ne, 2, |ne|);
    assert Offset(ne, 2) == Offset(ne, 1) + ne[1] && Offset(ne, 1) == Offset(ne, 0) + ne[0];
    j := 1;
  }

  /** A result in parts, if no source is, is a product of factors cut along the summed axis. */
  lemma PartsComeFromProducts(op: Op, st: seq<State>, src: seq<Mat>)
    requires |st| == |src| && Shaped(op, src) && Infer(op, st, src) == Some(Partial) && Partial !in st
    ensures op == MulMat && |st| == 2 && st[0].Split? && st[0] == st[1] && st[0].axis == 0
  {
  }

  /** A last result that is left in parts, and counts as held by all, is held by all for all values of
      the sources exactly if there is only one device. */
  lemma LastPartNeedsOneDevice(op: Op, st: seq<State>, shapes: seq<Mat>, n: nat)
    requires |st| == |shapes| && Shaped(op, shapes) && Infer(op, st, shapes) == Some(Partial) && Partial !in st
    requires |st[0].ne| == n && Offset(st[0].ne, n) == shapes[0].ne0 > 0
    requires Apply(op, shapes).ne0 > 0 && Apply(op, shapes).ne1 > 0
    ensures AlwaysShared(op, st, shapes, n) <==> n == 1
  {
    PartsComeFromProducts(op, st, shapes);
    if n == 1 {
      forall src: seq<Mat>, parts: seq<seq<Mat>> ensures SharedAt(op, st, shapes, n, src, parts) {
        if SameShapes(src, shapes) && AllHold(st, src, parts, n) {
          RuleHolds(op, st, src, parts, n);
          OnePartIsAll(Apply(op, src), ApplyAll(op, parts, n));
        }
      }
    } else {
      OnesAreNotShared(st, shapes, n);
    }
  }

  lemma OnesAreNotShared(st: seq<State>, shapes: seq<Mat>, n: nat)
    requires |st| == |shapes| == 2 && st[0].Split? && st[0] == st[1] && st[0].axis == 0
    requires shapes[0].ne0 == shapes[1].ne0
    requires |st[0].ne| == n != 1 && Offset(st[0].ne, n) == shapes[0].ne0 > 0 && shapes[0].ne1 > 0 && shapes[1].ne1 > 0
    ensures !AlwaysShared(MulMat, st, shapes, n)
  {
    var ne, k := st[0].ne, shapes[0].ne0;
    var a, b, pa, pb :=
        Ones(k, shapes[0].ne1), Ones(k, shapes[1].ne1), OnesParts(ne, shapes[0].ne1), OnesParts(ne, shapes[1].ne1);
    OnesAreCut(ne, shapes[0].ne1);
    OnesAreCut(ne, shapes[1].ne1);
    assert SourceHolds(st, [a, b], [pa, pb], n, 0) && SourceHolds(st, [a, b], [pa, pb], n, 1);
    var j := SomebodyHasLess(ne);
    var outs := ApplyAll(MulMat, [pa, pb], n);
    assert OnDevice([pa, pb], j) == [pa[j], pb[j]];
    DotOfOnes(a, b, 0, 0, k);
    DotOfOnes(pa[j], pb[j], 0, 0, ne[j]);
    var full := Apply(MulMat, [a, b]);
    assert outs[j] == Apply(MulMat, [pa[j], pb[j]]);
    assert full.at(0, 0) == k && outs[j].at(0, 0) == ne[j];
    assert !Same(full, outs[j]);
    assert !SharedAt(MulMat, st, shapes, n, [a, b], [pa, pb]);
  }

  // ---- when what counts as in parts is read right

  /** The result adds up, whatever the values of the sources are. */
  ghost predicate AlwaysAddsUp(op: Op, whole: seq<bool>, n: nat) {
    forall src: seq<Mat>, parts: seq<seq<Mat>> :: AddsUpAt(op, whole, n, src, parts)
  }

  ghost predicate AddsUpAt(op: Op, whole: seq<bool>, n: nat, src: seq<Mat>, parts: seq<seq<Mat>>) {
    Shaped(op, src) && Spread(src, parts, whole, n) && (forall k :: 0 <= k < |parts| ==> |parts[k]| == n) ==>
      AddsUp(Apply(op, src), ApplyAll(op, parts, n))
  }

  /** The first device has `x`, the second `y`, the others only what is whole. */
  function Shares(x: seq<int>, y: seq<int>, whole: seq<bool>, n: nat): (vs: seq<seq<int>>)
    requires |x| == |y| == |whole| && n >= 2
    ensures |vs| == n && forall j :: 0 <= j < n ==> |vs[j]| == |x|
  {
    [x, y] + seq(n - 2, _ => Kept(x, whole))
  }

  lemma {:induction false} SumOfShares(v: seq<int>, x: int, y: int, z: int, j: nat)
    requires 2 <= j <= |v| && v[0] == x && v[1] == y && forall i :: 2 <= i < |v| ==> v[i] == z
    ensures AllReduce.Sum(v, 0, j) == x + y + (j - 2) * z
  {
    if j == 2 {
      assert AllReduce.Sum(v, 0, 1) == AllReduce.Sum(v, 0, 0) + v[0];
    } else {
      SumOfShares(v, x, y, z, j - 1);
      Distribute(z, j - 3, 1);
    }
  }

  lemma SharesAreShared(x: seq<int>, y: seq<int>, whole: seq<bool>, n: nat)
    requires |x| == |y| == |whole| && n >= 2 && Agree(x, y, whole)
    ensures SharedOut(Blend(x, y, whole), Shares(x, y, whole, n), whole)
  {
    var b, vs := Blend(x, y, whole), Shares(x, y, whole, n);
    forall k | 0 <= k < |b| ensures EntryShared(b, vs, whole, k) {
      if !whole[k] { SumOfShares(Entries(vs, k), x[k], y[k], 0, n); }
    }
  }

  /** What `f` gives on the shares of `x` and `y` adds up. */
  ghost predicate SharesAddUp(f: seq<int> -> int, whole: seq<bool>, n: nat, x: seq<int>, y: seq<int>) {
    n >= 2 && |x| == |y| == |whole| && Agree(x, y, whole) ==>
      f(Blend(x, y, whole)) == f(x) + f(y) + (n - 2) * f(Kept(x, whole))
  }

  lemma NothingComesFromNothing(z: int, n: nat)
    requires n >= 2 && 0 == z + (n - 2) * z
    ensures z == 0
  {
    assert (n - 1) * z == 0;
  }

  lemma SharesMakeAdditive(f: seq<int> -> int, whole: seq<bool>, n: nat)
    requires n >= 2 && forall x: seq<int>, y: seq<int> :: SharesAddUp(f, whole, n, x, y)
    ensures AdditiveIn(f, whole)
  {
    forall x: seq<int>, y: seq<int> ensures AdditiveAt(f, whole, x, y) {
      if |x| == |y| == |whole| && Agree(x, y, whole) {
        var z := Kept(x, whole);
        assert Blend(x, z, whole) == x && Kept(x, whole) == z;
        assert SharesAddUp(f, whole, n, x, z);
        NothingComesFromNothing(f(z), n);
        assert SharesAddUp(f, whole, n, x, y);
      }
    }
  }

  function Cell(x: int): Mat {
    Mat(1, 1, (i0: nat, i1: nat) => x)
  }

  function Cells(x: seq<int>): (r: seq<Mat>)
    ensures |r| == |x|
  {
    seq(|x|, k requires 0 <= k < |x| => Cell(x[k]))
  }

  /** What the devices have of one cell for each source. */
  function CellParts(vs: seq<seq<int>>, m: nat): (parts: seq<seq<Mat>>)
    ensures |parts| == m && forall k :: 0 <= k < m ==> |parts[k]| == |vs|
  {
    seq(m, k requires 0 <= k < m => seq(|vs|, j requires 0 <= j < |vs| => Cell(Item(vs[j], k))))
  }

  lemma CellsAreSpread(x: seq<int>, vs: seq<seq<int>>, whole: seq<bool>)
    requires SharedOut(x, vs, whole)
    ensures Spread(Cells(x), CellParts(vs, |x|), whole, |vs|)
  {
    var src, parts := Cells(x), CellParts(vs, |x|);
    forall k | 0 <= k < |x| ensures SpreadAt(src, parts, whole, |vs|, k) {
      assert EntryShared(x, vs, whole, k);
      assert Column(parts[k], 0, 0) == Entries(vs, k);
    }
  }

  /** An operation on cells computes `f` of their values. */
  ghost predicate OnCells(op: Op, f: seq<int> -> int, m: nat) {
    forall v: seq<int> :: |v| == m ==>
      Shaped(op, Cells(v)) && Apply(op, Cells(v)).ne0 == 1 && Apply(op, Cells(v)).ne1 == 1
      && Apply(op, Cells(v)).at(0, 0) == f(v)
  }

  lemma CellsShow(op: Op, f: seq<int> -> int, whole: seq<bool>, n: nat, x: seq<int>, y: seq<int>)
    requires OnCells(op, f, |whole|) && AlwaysAddsUp(op, whole, n) && n >= 2
    ensures SharesAddUp(f, whole, n, x, y)
  {
    if |x| == |y| == |whole| && Agree(x, y, whole) {
      var b, vs := Blend(x, y, whole), Shares(x, y, whole, n);
      SharesAreShared(x, y, whole, n);
      CellsAreSpread(b, vs, whole);
      var parts := CellParts(vs, |b|);
      assert AddsUpAt(op, whole, n, Cells(b), parts);
      var w := Column(ApplyAll(op, parts, n), 0, 0);
      forall j | 0 <= j < n ensures w[j] == f(vs[j]) { assert OnDevice(parts, j) == Cells(vs[j]); }
      SumOfShares(w, f(x), f(y), f(Kept(x, whole)), n);
      assert Apply(op, Cells(b)).at(0, 0) == f(b);
    }
  }

  lemma OperationsOnCells(op: Op, m: nat)
    requires TakesParts(op, m) && !op.PerRow?
    ensures op.Elementwise? ==> OnCells(op, op.f, m)
    ensures op.Broadcast? ==> OnCells(op, Paired(op.g), m)
  {
    forall v: seq<int> | |v| == m
      ensures op.Elementwise? ==> Values(Cells(v), 0, 0) == v
      ensures Shaped(op, Cells(v))
    {
      if op.Elementwise? { assert Values(Cells(v), 0, 0) == v; }
    }
  }

  /** A matrix of one row. */
  function OneRow(v: seq<int>): Mat {
    Mat(|v|, 1, (i0: nat, i1: nat) => Item(v, i0))
  }

  lemma RowIsSpread(x: seq<int>, vs: seq<seq<int>>, whole: seq<bool>, parts: seq<seq<Mat>>)
    requires |whole| == 1 && SharedOut(x, vs, All(whole[0], |x|))
    requires parts == [seq(|vs|, j requires 0 <= j < |vs| => OneRow(vs[j]))]
    ensures Spread([OneRow(x)], parts, whole, |vs|)
  {
    var every := All(whole[0], |x|);
    if whole[0] {
      forall j | 0 <= j < |vs| ensures Same(OneRow(x), parts[0][j]) {
        forall i0: nat | i0 < |x| ensures vs[j][i0] == x[i0] { assert EntryShared(x, vs, every, i0); }
      }
    } else {
      forall i0: nat, i1: nat | i0 < |x| && i1 < 1
        ensures OneRow(x).at(i0, i1) == AllReduce.Sum(Column(parts[0], i0, i1), 0, |vs|)
      {
        assert EntryShared(x, vs, every, i0) && Column(parts[0], i0, i1) == Entries(vs, i0);
      }
    }
    assert SpreadAt([OneRow(x)], parts, whole, |vs|, 0);
  }

  /** The shares of rows as matrices, and that they add up. */
  lemma RowShares(r: seq<int> -> seq<int>, scalar: bool, whole: seq<bool>, n: nat, x: seq<int>, vs: seq<seq<int>>)
    returns (parts: seq<seq<Mat>>)
    requires |whole| == 1 && AlwaysAddsUp(PerRow(r, scalar), whole, n) && |vs| == n
    requires SharedOut(x, vs, All(whole[0], |x|))
    ensures parts == [seq(|vs|, j requires 0 <= j < |vs| => OneRow(vs[j]))]
    ensures AddsUp(Apply(PerRow(r, scalar), [OneRow(x)]), ApplyAll(PerRow(r, scalar), parts, n))
  {
    parts := [seq(|vs|, j requires 0 <= j < |vs| => OneRow(vs[j]))];
    RowIsSpread(x, vs, whole, parts);
    assert AddsUpAt(PerRow(r, scalar), whole, n, [OneRow(x)], parts);
  }

  lemma RowsShow(r: seq<int> -> seq<int>, scalar: bool, whole: seq<bool>, n: nat, i: nat, x: seq<int>, y: seq<int>)
    requires |whole| == 1 && AlwaysAddsUp(PerRow(r, scalar), whole, n) && n >= 2 && i < (if scalar then 1 else |x|)
    ensures SharesAddUp(Entry(r, i), All(whole[0], |x|), n, x, y)
  {
    var op, every := PerRow(r, scalar), All(whole[0], |x|);
    if |x| == |y| && Agree(x, y, every) {
      var b, vs := Blend(x, y, every), Shares(x, y, every, n);
      SharesAreShared(x, y, every, n);
      var parts := RowShares(r, scalar, whole, n, b, vs);
      var w := RowResults(r, scalar, vs, parts, i);
      SumOfShares(w, Entry(r, i)(x), Entry(r, i)(y), Entry(r, i)(Kept(x, every)), n);
      assert Row(OneRow(b), 0) == b;
    }
  }

  /** What the devices compute at place `i` of their rows. */
  lemma RowResults(r: seq<int> -> seq<int>, scalar: bool, vs: seq<seq<int>>, parts: seq<seq<Mat>>, i: nat)
    returns (w: seq<int>)
    requires parts == [seq(|vs|, j requires 0 <= j < |vs| => OneRow(vs[j]))]
    ensures w == Column(ApplyAll(PerRow(r, scalar), parts, |vs|), i, 0)
    ensures |w| == |vs| && forall j :: 0 <= j < |vs| ==> w[j] == Entry(r, i)(vs[j])
  {
    w := Column(ApplyAll(PerRow(r, scalar), parts, |vs|), i, 0);
    forall j | 0 <= j < |vs| ensures w[j] == Entry(r, i)(vs[j]) {
      assert OnDevice(parts, j) == [OneRow(vs[j])] && Row(OneRow(vs[j]), 0) == vs[j];
    }
  }

  /** On several devices, the result of an operation on sources some of which are whole and the others in
      parts is in parts, for all their values, exactly if the operation is additive in those in parts. */
  lemma PartsNeedAdditiveOps(op: Op, whole: seq<bool>, n: nat)
    requires TakesParts(op, |whole|) && n >= 2
    ensures AlwaysAddsUp(op, whole, n) <==> AdditiveOp(op, whole)
  {
    if AdditiveOp(op, whole) {
      forall src: seq<Mat>, parts: seq<seq<Mat>> ensures AddsUpAt(op, whole, n, src, parts) {
        if Shaped(op, src) && Spread(src, parts, whole, n) && forall k :: 0 <= k < |parts| ==> |parts[k]| == n {
          AdditiveOpKeepsParts(op, src, parts, whole, n);
        }
      }
    }
    if AlwaysAddsUp(op, whole, n) { OnlyAdditiveOpsAddUp(op, whole, n); }
  }

  lemma OnlyAdditiveOpsAddUp(op: Op, whole: seq<bool>, n: nat)
    requires TakesParts(op, |whole|) && n >= 2 && AlwaysAddsUp(op, whole, n)
    ensures AdditiveOp(op, whole)
  {
    match op
    case Elementwise(f) =>
      OperationsOnCells(op, |whole|);
      forall x: seq<int>, y: seq<int> ensures SharesAddUp(f, whole, n, x, y) { CellsShow(op, f, whole, n, x, y); }
      SharesMakeAdditive(f, whole, n);
    case Broadcast(g) =>
      OperationsOnCells(op, |whole|);
      forall x: seq<int>, y: seq<int> ensures SharesAddUp(Paired(g), whole, n, x, y) {
        CellsShow(op, Paired(g), whole, n, x, y);
      }
      SharesMakeAdditive(Paired(g), whole, n);
    case PerRow(r, scalar) =>
      forall i: nat, l: nat | i < (if scalar then 1 else l) ensures AdditiveIn(Entry(r, i), All(whole[0], l)) {
        RowEntriesAddUp(r, scalar, whole, n, i, l);
      }
  }

  lemma RowEntriesAddUp(r: seq<int> -> seq<int>, scalar: bool, whole: seq<bool>, n: nat, i: nat, l: nat)
    requires |whole| == 1 && AlwaysAddsUp(PerRow(r, scalar), whole, n) && n >= 2 && i < (if scalar then 1 else l)
    ensures AdditiveIn(Entry(r, i), All(whole[0], l))
  {
    forall x: seq<int>, y: seq<int> ensures SharesAddUp(Entry(r, i), All(whole[0], l), n, x, y) {
      if |x| == l { RowsShow(r, scalar, whole, n, i, x, y); }
    }
    SharesMakeAdditive(Entry(r, i), All(whole[0], l), n);
  }

  /** After the all-reduce every device has the result, whatever the values of the sources are. */
  ghost predicate AlwaysReadRight(op: Op, whole: seq<bool>, n: nat) {
    forall src: seq<Mat>, parts: seq<seq<Mat>> :: ReadRightAt(op, whole, n, src, parts)
  }

  ghost predicate ReadRightAt(op: Op, whole: seq<bool>, n: nat, src: seq<Mat>, parts: seq<seq<Mat>>) {
    Shaped(op, src) && Spread(src, parts, whole, n) && (forall k :: 0 <= k < |parts| ==> |parts[k]| == n) ==>
      Holds(Mirrored, Apply(op, src), Reduce(ApplyAll(op, parts, n)))
  }

  /** What counts as in parts, and of which some sources have been all-reduced before, is read right for all
      values exactly if there is one device, or the operation is additive in the other sources. */
  lemma PartsAreReadRight(op: Op, whole: seq<bool>, n: nat)
    requires TakesParts(op, |whole|) && n > 0 && AllReduce.PowerOfTwo(n)
    ensures AlwaysReadRight(op, whole, n) <==> n == 1 || AdditiveOp(op, whole)
  {
    forall src: seq<Mat>, parts: seq<seq<Mat>>
      ensures ReadRightAt(op, whole, n, src, parts) <==> AddsUpAt(op, whole, n, src, parts)
      ensures n == 1 ==> AddsUpAt(op, whole, n, src, parts)
    {
      if Shaped(op, src) && Spread(src, parts, whole, n) && forall k :: 0 <= k < |parts| ==> |parts[k]| == n {
        ReduceIsMirrored(Apply(op, src), ApplyAll(op, parts, n));
        if n == 1 { OneDeviceKeepsParts(op, src, parts, whole); }
      }
    }
    if n > 1 { PartsNeedAdditiveOps(op, whole, n); }
    assert AlwaysReadRight(op, whole, n) <==> AlwaysAddsUp(op, whole, n) by {
      if AlwaysAddsUp(op, whole, n) {
        forall src: seq<Mat>, parts: seq<seq<Mat>> ensures ReadRightAt(op, whole, n, src, parts) {
          assert AddsUpAt(op, whole, n, src, parts);
        }
      }
      if AlwaysReadRight(op, whole, n) {
        forall src: seq<Mat>, parts: seq<seq<Mat>> ensures AddsUpAt(op, whole, n, src, parts) {
          assert ReadRightAt(op, whole, n, src, parts);
        }
      }
    }
  }

  // ---- results that are reduced twice

  ghost predicate ZeroOn(f: seq<int> -> int, m: nat) {
    forall x: seq<int> :: |x| == m ==> f(x) == 0
  }

  /** The operation gives zero whatever its `m` sources are. */
  ghost predicate ZeroOp(op: Op, m: nat) {
    match op
    case MulMat => false
    case Elementwise(f) => ZeroOn(f, m)
    case Broadcast(g) => ZeroOn(Paired(g), m)
    case PerRow(r, scalar) => ZeroRows(r, scalar)
  }

  ghost predicate ZeroRows(r: seq<int> -> seq<int>, scalar: bool) {
    forall i: nat, l: nat :: i < (if scalar then 1 else l) ==> ZeroOn(Entry(r, i), l)
  }

  lemma AdditiveInNothing(f: seq<int> -> int, m: nat)
    ensures AdditiveIn(f, All(true, m)) <==> ZeroOn(f, m)
  {
    if AdditiveIn(f, All(true, m)) {
      forall x: seq<int> | |x| == m ensures f(x) == 0 {
        assert Blend(x, x, All(true, m)) == x && AdditiveAt(f, All(true, m), x, x);
      }
    }
    if ZeroOn(f, m) {
      forall x: seq<int>, y: seq<int> ensures AdditiveAt(f, All(true, m), x, y) {}
    }
  }

  lemma AdditiveInNoSource(op: Op, m: nat)
    requires TakesParts(op, m)
    ensures AdditiveOp(op, All(true, m)) <==> ZeroOp(op, m)
  {
    match op
    case Elementwise(f) => AdditiveInNothing(f, m);
    case Broadcast(g) => AdditiveInNothing(Paired(g), m);
    case PerRow(r, scalar) =>
      assert All(true, m)[0];
      AdditiveInNoRow(r, scalar);
  }

  lemma AdditiveInNoRow(r: seq<int> -> seq<int>, scalar: bool)
    ensures AdditiveRows(r, scalar, true) <==> ZeroRows(r, scalar)
  {
    var whole := true;
    if AdditiveRows(r, scalar, whole) {
      forall i: nat, l: nat | i < (if scalar then 1 else l) ensures ZeroOn(Entry(r, i), l) {
        assert AdditiveIn(Entry(r, i), All(whole, l));
        AdditiveInNothing(Entry(r, i), l);
      }
    }
    if ZeroRows(r, scalar) {
      forall i: nat, l: nat | i < (if scalar then 1 else l) ensures AdditiveIn(Entry(r, i), All(whole, l)) {
        assert ZeroOn(Entry(r, i), l);
        AdditiveInNothing(Entry(r, i), l);
      }
    }
  }

  /** A reader of results that have been all-reduced already, and still count as in parts, gives the right
      result for all values exactly if there is one device or the operation is constantly zero. */
  lemma SecondReductionIsWrong(op: Op, m: nat, n: nat)
    requires TakesParts(op, m) && n > 0 && AllReduce.PowerOfTwo(n)
    ensures AlwaysReadRight(op, All(true, m), n) <==> n == 1 || ZeroOp(op, m)
  {
    PartsAreReadRight(op, All(true, m), n);
    AdditiveInNoSource(op, m);
  }

  lemma {:induction false} SumOfSame(v: seq<int>, x: int, j: nat)
    requires j <= |v| && forall i :: 0 <= i < |v| ==> v[i] == x
    ensures AllReduce.Sum(v, 0, j) == j * x
  {
    if j > 0 {
      SumOfSame(v, x, j - 1);
      Distribute(x, j - 1, 1);
    }
  }

  /** Every device has `n` times the tensor. */
  ghost predicate Multiplied(full: Mat, parts: seq<Mat>, n: nat) {
    forall j :: 0 <= j < |parts| ==> MultipliedAt(full, parts[j], n)
  }

  ghost predicate MultipliedAt(full: Mat, part: Mat, n: nat) {
    forall i0: nat, i1: nat :: i0 < full.ne0 && i1 < full.ne1 ==> part.at(i0, i1) == n * full.at(i0, i1)
  }

  lemma ReducingWholeMultiplies(full: Mat, outs: seq<Mat>)
    requires |outs| > 0 && AllReduce.PowerOfTwo(|outs|) && Holds(Mirrored, full, outs)
    ensures Multiplied(full, Reduce(outs), |outs|)
  {
    forall j | 0 <= j < |outs| ensures MultipliedAt(full, Reduce(outs)[j], |outs|) {
      forall i0: nat, i1: nat | i0 < full.ne0 && i1 < full.ne1
        ensures Reduce(outs)[j].at(i0, i1) == |outs| * full.at(i0, i1)
      {
        AllReduce.PowerOfTwoAgrees(Column(outs, i0, i1), j);
        forall i | 0 <= i < |outs| ensures Column(outs, i0, i1)[i] == full.at(i0, i1) { assert Same(full, outs[i]); }
        SumOfSame(Column(outs, i0, i1), full.at(i0, i1), |outs|);
      }
    }
  }

  /** Multiplying by a constant. */
  function Scale(a: int): Op {
    Elementwise((v: seq<int>) => if |v| == 1 then a * v[0] else 0)
  }

  lemma ScaleStep(c: Config, n: nat, a: int, t: nat)
    requires Good(c, n) && n > 0 && AllReduce.PowerOfTwo(n) && t < |c.st| && c.st[t] == Partial
    ensures Step(c, Instr(Scale(a), [t]), n, true).Some?
    ensures var d := Step(c, Instr(Scale(a), [t]), n, true).value;
            |d.st| == |c.st| + 1 && d.Complete(n) && d.st[|c.st|] == Partial && d.reduced[|c.st|]
            && d.full[|c.st|] == Apply(Scale(a), [c.full[t]])
            && d.parts[|c.st|] == Reduce(ApplyAll(Scale(a), [c.parts[t]], n))
  {
    assert Pick(c.st, [t]) == [Partial] && Pick(c.full, [t]) == [c.full[t]] && Pick(c.parts, [t]) == [c.parts[t]];
  }

  lemma ScaleIsAdditive(a: int)
    ensures AdditiveOp(Scale(a), [false])
  {
    var f := Scale(a).f;
    forall x: seq<int>, y: seq<int> ensures AdditiveAt(f, [false], x, y) {
      if |x| == |y| == 1 { Distribute(a, x[0], y[0]); }
    }
  }

  /** A leaf in parts is scaled, the result is scaled again, and something follows: the first result is
      all-reduced and counts as in parts, so the second one is reduced once more, and every device has it
      `n` times. */
  lemma ScaledTwiceIsMultiplied(c: Config, program: seq<Instr>, n: nat, t: nat, a: int, b: int)
    requires Good(c, n) && n > 0 && AllReduce.PowerOfTwo(n) && |program| > 2
    requires t < |c.st| && c.st[t] == Partial && !c.reduced[t]
    requires program[0] == Instr(Scale(a), [t]) && program[1] == Instr(Scale(b), [|c.st|])
    ensures Run(c, program, n, 2).Some?
    ensures var d, k := Run(c, program, n, 2).value, |c.st| + 1;
            |d.st| == |d.full| == |d.parts| == k + 1 && d.st[k] == Partial && d.reduced[k]
            && Multiplied(d.full[k], d.parts[k], n)
  {
    ScaleStep(c, n, a, t);
    assert Pick(c.reduced, [t]) == [false] && Pick(c.st, [t]) == [Partial];
    ScaleIsAdditive(a);
    StepIsGood(c, program[0], n, true);
    var u := Step(c, program[0], n, true).value;
    assert Run(c, program, n, 1) == Some(u);
    ScaleStep(u, n, b, |c.st|);
    assert GoodAt(u, |c.st|);
    var full, parts := u.full[|c.st|], u.parts[|c.st|];
    var outs := ApplyAll(Scale(b), [parts], n);
    forall j | 0 <= j < n ensures Same(Apply(Scale(b), [full]), outs[j]) {
      assert OnDevice([parts], j) == [parts[j]] && Same(full, parts[j]);
      ElementwiseSame(Scale(b).f, [full], [parts[j]]);
    }
    ReducingWholeMultiplies(Apply(Scale(b), [full]), outs);
  }
}
