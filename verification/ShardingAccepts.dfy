/** Which states of the sources have to be accepted, because the devices' results then fit some state of the
    result, and which the rules accept. */
module ShardingAccepts {
  import opened Wrappers
  import opened Arithmetic
  import opened Sharding
  import AllReduce

  // ---- states that fit

  /** The same operation, up to the function it applies. */
  predicate SameKind(op: Op, op': Op) {
    match op
    case MulMat => op'.MulMat?
    case Elementwise(_) => op'.Elementwise?
    case Broadcast(_) => op'.Broadcast?
    case PerRow(_, scalar) => op'.PerRow? && op'.scalar == scalar
  }

  /** Whatever the function and the values of the sources are: if the devices hold the sources as their states
      say, they then hold the result as `s` says. */
  ghost predicate Fits(op: Op, st: seq<State>, src: seq<Mat>, n: nat, s: State) {
    forall op': Op, src': seq<Mat>, parts: seq<seq<Mat>> :: FitsAt(op, st, src, n, s, op', src', parts)
  }

  ghost predicate FitsAt(op: Op, st: seq<State>, src: seq<Mat>, n: nat, s: State, op': Op, src': seq<Mat>,
                         parts: seq<seq<Mat>>) {
    SameKind(op, op') && SameShapes(src', src) && AllHold(st, src', parts, n) ==>
      Holds(s, Apply(op', src'), ApplyAll(op', parts, n))
  }

  /** A tensor of this shape can be held like that; it is not in parts. */
  ghost predicate Sized(s: State, a: Mat, n: nat) {
    match s
    case Split(axis, ne) => axis <= 1 && |ne| == n && Offset(ne, n) == Extent(a, axis)
    case Mirrored => true
    case Partial => false
  }

  ghost predicate AllSized(st: seq<State>, src: seq<Mat>, n: nat) {
    |st| == |src| && forall k :: 0 <= k < |st| ==> Sized(st[k], src[k], n)
  }

  predicate NoneEmpty(src: seq<Mat>) {
    forall k :: 0 <= k < |src| ==> src[k].ne0 > 0 && src[k].ne1 > 0
  }

  // ---- sizes

  lemma TwoPieces(ne: seq<nat>, i: nat, j: nat)
    requires i < |ne| && j < |ne| && i != j
    ensures ne[i] + ne[j] <= Offset(ne, |ne|)
    ensures i < j ==> ne[i] <= Offset(ne, j)
  {
    OffsetsGrow(ne, i + 1, |ne|);
    OffsetsGrow(ne, j + 1, |ne|);
    if i < j { OffsetsGrow(ne, i + 1, j); } else { OffsetsGrow(ne, j + 1, i); }
  }

  lemma PieceIsSmall(ne: seq<nat>, j: nat)
    requires j < |ne|
    ensures Offset(ne, j) + ne[j] <= Offset(ne, |ne|)
  {
    OffsetsGrow(ne, j + 1, |ne|);
  }

  /** Of several pieces one is smaller than the whole. */
  lemma SomeLess(ne: seq<nat>) returns (j: nat)
    requires |ne| >= 2 && Offset(ne, |ne|) > 0
    ensures j < |ne| && ne[j] < Offset(ne, |ne|)
  {
    TwoPieces(ne, 0, 1);
    j := if ne[0] < Offset(ne, |ne|) then 0 else 1;
  }

  lemma SomePositive(ne: seq<nat>) returns (j: nat)
    requires Offset(ne, |ne|) > 0
    ensures j < |ne| && ne[j] > 0
  {
    if forall i :: 0 <= i < |ne| ==> ne[i] == 0 { NothingAddsUp(ne, |ne|); }
    j :| j < |ne| && ne[j] > 0;
  }

  lemma {:induction false} GapStays(ne: seq<nat>, ne': seq<nat>, i: nat, j: nat)
    requires |ne| == |ne'| && i < |ne| && j <= |ne| && forall k :: 0 <= k < |ne| ==> ne[k] <= ne'[k]
    ensures Offset(ne, j) <= Offset(ne', j)
    ensures i < j ==> Offset(ne, j) + ne'[i] - ne[i] <= Offset(ne', j)
  {
    if j > 0 { GapStays(ne, ne', i, j - 1); }
  }

  /** Pieces that are nowhere smaller and not larger together are the same. */
  lemma SamePieces(ne: seq<nat>, ne': seq<nat>)
    requires |ne| == |ne'| && (forall k :: 0 <= k < |ne| ==> ne[k] <= ne'[k])
    requires Offset(ne', |ne|) <= Offset(ne, |ne|)
    ensures ne == ne'
  {
    forall i | 0 <= i < |ne| ensures ne[i] == ne'[i] { GapStays(ne, ne', i, |ne|); }
  }

  /** Device `j` has all of a tensor that is cut. */
  predicate HasAll(s: State, j: nat) {
    s.Split? ==> j < |s.ne| && forall i :: 0 <= i < |s.ne| && i != j ==> s.ne[i] == 0
  }

  ghost predicate OneHas(st: seq<State>, j: nat) {
    forall k :: 0 <= k < |st| ==> HasAll(st[k], j)
  }

  /** One device has all of the tensors that are cut. */
  ghost predicate OneHolder(st: seq<State>) {
    exists j: nat :: OneHas(st, j)
  }

  lemma HolderHasAll(s: State, j: nat)
    requires s.Split? && j < |s.ne| && s.ne[j] == Offset(s.ne, |s.ne|)
    ensures HasAll(s, j)
  {
    forall i | 0 <= i < |s.ne| && i != j ensures s.ne[i] == 0 { TwoPieces(s.ne, i, j); }
  }

  /** What the holder has is the whole. */
  lemma {:induction false} HolderHasSum(ne: seq<nat>, j: nat, m: nat)
    requires j < |ne| && m <= |ne| && forall i :: 0 <= i < |ne| && i != j ==> ne[i] == 0
    ensures Offset(ne, m) == if m <= j then 0 else ne[j]
  {
    if m > 0 { HolderHasSum(ne, j, m - 1); }
  }

  // ---- sources handed out

  /** What device `j` has of `a`, and `z` outside of it. */
  function PartOf(a: Mat, s: State, j: nat, z: int): Mat
    requires s.Split? ==> j < |s.ne|
  {
    match s
    case Split(axis, ne) =>
      var off, size := Offset(ne, j), ne[j];
      if axis == 0 then Mat(size, a.ne1, (i0: nat, i1: nat) => if i0 < size then a.at(off + i0, i1) else z)
      else Mat(a.ne0, size, (i0: nat, i1: nat) => if i1 < size then a.at(i0, off + i1) else z)
    case _ => a
  }

  ghost function PartsOf(a: Mat, s: State, n: nat, z: int): (parts: seq<Mat>)
    requires Sized(s, a, n)
    ensures |parts| == n && forall j :: 0 <= j < n ==> parts[j] == PartOf(a, s, j, z)
  {
    seq(n, j requires 0 <= j < n => PartOf(a, s, j, z))
  }

  ghost function Handed(src: seq<Mat>, st: seq<State>, n: nat, z: int): (parts: seq<seq<Mat>>)
    requires AllSized(st, src, n)
    ensures |parts| == |src| && forall k :: 0 <= k < |src| ==> parts[k] == PartsOf(src[k], st[k], n, z)
  {
    seq(|src|, k requires 0 <= k < |src| => PartsOf(src[k], st[k], n, z))
  }

  lemma HandedHold(st: seq<State>, src: seq<Mat>, n: nat, z: int)
    requires AllSized(st, src, n)
    ensures AllHold(st, src, Handed(src, st, n, z), n)
  {
    var parts := Handed(src, st, n, z);
    forall k | 0 <= k < |src| ensures SourceHolds(st, src, parts, n, k) {
      var s, a := st[k], src[k];
      assert Sized(s, a, n);
      if s.Split? {
        forall j | 0 <= j < n ensures PieceAt(a, parts[k], s.axis, s.ne, j) {}
      }
    }
  }

  lemma SizedLikewise(st: seq<State>, src: seq<Mat>, src': seq<Mat>, n: nat)
    requires AllSized(st, src, n) && SameShapes(src', src)
    ensures AllSized(st, src', n)
  {
    forall k | 0 <= k < |st| ensures Sized(st[k], src'[k], n) { assert Sized(st[k], src[k], n); }
  }

  /** A state that fits fits for these sources. */
  lemma Tried(op: Op, st: seq<State>, src: seq<Mat>, n: nat, s: State, op': Op, src': seq<Mat>, z: int)
    requires Fits(op, st, src, n, s) && SameKind(op, op') && SameShapes(src', src) && AllSized(st, src, n)
    ensures AllSized(st, src', n) && AllHold(st, src', Handed(src', st, n, z), n)
    ensures Holds(s, Apply(op', src'), ApplyAll(op', Handed(src', st, n, z), n))
  {
    SizedLikewise(st, src, src', n);
    HandedHold(st, src', n, z);
    assert FitsAt(op, st, src, n, s, op', src', Handed(src', st, n, z));
  }

  // ---- along an axis

  function At(m: Mat, axis: nat, i: nat): int {
    if axis == 0 then m.at(i, 0) else m.at(0, i)
  }

  function Other(axis: nat): nat {
    if axis == 0 then 1 else 0
  }

  lemma HeldAlong(s: State, full: Mat, parts: seq<Mat>, j: nat, i: nat)
    requires Holds(s, full, parts) && s.Split? && j < |s.ne| && Extent(full, Other(s.axis)) > 0 && i < s.ne[j]
    ensures |parts| == |s.ne| && At(parts[j], s.axis, i) == At(full, s.axis, Offset(s.ne, j) + i)
  {
    assert PieceAt(full, parts, s.axis, s.ne, j);
    PieceAlong(full, parts, s.axis, s.ne, j, i);
  }

  /** The extent across a cut, and both extents where there is none, are those of the whole. */
  lemma ExtentsOfPart(s: State, full: Mat, parts: seq<Mat>, j: nat)
    requires Holds(s, full, parts) && j < |parts|
    ensures s.Split? ==> s.axis <= 1 && Extent(parts[j], Other(s.axis)) == Extent(full, Other(s.axis))
    ensures !s.Split? ==> parts[j].ne0 == full.ne0 && parts[j].ne1 == full.ne1
  {
    if s.Split? { assert PieceAt(full, parts, s.axis, s.ne, j); }
  }

  lemma PieceAlong(full: Mat, parts: seq<Mat>, axis: nat, ne: seq<nat>, j: nat, i: nat)
    requires axis <= 1 && j < |ne| == |parts| && PieceAt(full, parts, axis, ne, j) && Extent(full, Other(axis)) > 0
    requires i < ne[j]
    ensures At(parts[j], axis, i) == At(full, axis, Offset(ne, j) + i)
  {
  }

  lemma SameAlong(full: Mat, parts: seq<Mat>, j: nat, axis: nat, i: nat)
    requires Holds(Mirrored, full, parts) && j < |parts| && axis <= 1 && i < Extent(full, axis)
    requires Extent(full, Other(axis)) > 0
    ensures At(parts[j], axis, i) == At(full, axis, i)
  {
    assert Same(full, parts[j]);
  }

  /** What device `j` then computes along the axis of the result. */
  lemma TriedAlong(op: Op, st: seq<State>, src: seq<Mat>, n: nat, s: State, op': Op, src': seq<Mat>, z: int, j: nat,
                   i: nat)
    requires Fits(op, st, src, n, s) && SameKind(op, op') && SameShapes(src', src) && AllSized(st, src, n)
    requires s.Split? && j < |s.ne| && i < s.ne[j] && Extent(Apply(op', src'), Other(s.axis)) > 0
    ensures AllSized(st, src', n) && |s.ne| == n
    ensures At(ApplyAll(op', Handed(src', st, n, z), n)[j], s.axis, i)
         == At(Apply(op', src'), s.axis, Offset(s.ne, j) + i)
  {
    Tried(op, st, src, n, s, op', src', z);
    HeldAlong(s, Apply(op', src'), ApplyAll(op', Handed(src', st, n, z), n), j, i);
  }

  /** If all devices have results of full size, the result is not cut. */
  lemma FullEverywhere(s: State, full: Mat, outs: seq<Mat>)
    requires Holds(s, full, outs) && |outs| >= 2 && full.ne0 > 0 && full.ne1 > 0
    requires forall j :: 0 <= j < |outs| ==> outs[j].ne0 == full.ne0 && outs[j].ne1 == full.ne1
    ensures !s.Split?
  {
    if s.Split? {
      assert PieceAt(full, outs, s.axis, s.ne, 0) && PieceAt(full, outs, s.axis, s.ne, 1);
      TwoPieces(s.ne, 0, 1);
      assert false;
    }
  }

  /** Results that are cut along an axis fit only the state that says so. */
  lemma CutEverywhere(s: State, full: Mat, outs: seq<Mat>, axis: nat, ne: seq<nat>)
    requires Holds(s, full, outs) && |outs| == |ne| >= 2 && full.ne0 > 0 && full.ne1 > 0 && axis <= 1
    requires Offset(ne, |ne|) == Extent(full, axis)
    requires forall j :: 0 <= j < |outs| ==>
        Extent(outs[j], axis) == ne[j] && Extent(outs[j], Other(axis)) == Extent(full, Other(axis))
    ensures s == Split(axis, ne)
  {
    var j := SomeLess(ne);
    assert Extent(outs[j], axis) == ne[j];
    if s.Split? {
      assert PieceAt(full, outs, s.axis, s.ne, j);
      forall i | 0 <= i < |ne| ensures s.ne[i] == ne[i] { assert PieceAt(full, outs, s.axis, s.ne, i); }
      assert s.ne == ne;
    }
  }

  /** Results that are one everywhere are no parts of one. */
  lemma OnesAreNoParts(s: State, full: Mat, outs: seq<Mat>)
    requires Holds(s, full, outs) && |outs| >= 2 && full.ne0 > 0 && full.ne1 > 0 && full.at(0, 0) == 1
    requires forall j :: 0 <= j < |outs| ==> outs[j].at(0, 0) == 1
    ensures s != Partial
  {
    if s == Partial { SumOfSame(Column(outs, 0, 0), 1, |outs|); }
  }

  function Zeros(src: seq<Mat>): (r: seq<Mat>)
    ensures SameShapes(r, src)
  {
    seq(|src|, k requires 0 <= k < |src| => Mat(src[k].ne0, src[k].ne1, (i0: nat, i1: nat) => 0))
  }

  /** Every element is its place along the axis. */
  function Places(src: seq<Mat>, axis: nat): (r: seq<Mat>)
    ensures SameShapes(r, src)
  {
    seq(|src|, k requires 0 <= k < |src| =>
        Mat(src[k].ne0, src[k].ne1, (i0: nat, i1: nat) => if axis == 0 then i0 else i1))
  }

  // ---- elementwise operations

  function Projection(k: nat): seq<int> -> int {
    (v: seq<int>) => Item(v, k)
  }

  /** An operation that returns its source `k`. */
  lemma ProjectionAt(src: seq<Mat>, st: seq<State>, n: nat, z: int, k: nat, j: nat, axis: nat, i: nat)
    requires AllSized(st, src, n) && k < |src| && j < n
    ensures var op := Elementwise(Projection(k));
            && At(Apply(op, src), axis, i) == At(src[k], axis, i)
            && At(ApplyAll(op, Handed(src, st, n, z), n)[j], axis, i) == At(PartOf(src[k], st[k], j, z), axis, i)
  {
    assert Sized(st[k], src[k], n);
    var op, parts := Elementwise(Projection(k)), Handed(src, st, n, z);
    var here := OnDevice(parts, j);
    assert here[k] == PartOf(src[k], st[k], j, z);
    if axis == 0 {
      assert Values(src, i, 0)[k] == src[k].at(i, 0) && Values(here, i, 0)[k] == here[k].at(i, 0);
    } else {
      assert Values(src, 0, i)[k] == src[k].at(0, i) && Values(here, 0, i)[k] == here[k].at(0, i);
    }
  }

  /** The extents of what the devices compute are those of what they have of the first source. */
  lemma ElementwiseExtents(f: seq<int> -> int, src: seq<Mat>, st: seq<State>, n: nat, z: int, j: nat)
    requires AllSized(st, src, n) && |src| > 0 && j < n
    ensures var out := ApplyAll(Elementwise(f), Handed(src, st, n, z), n)[j];
            out.ne0 == PartOf(src[0], st[0], j, z).ne0 && out.ne1 == PartOf(src[0], st[0], j, z).ne1
    ensures Sized(st[0], src[0], n)
  {
    assert OnDevice(Handed(src, st, n, z), j)[0] == PartOf(src[0], st[0], j, z);
  }

  /** If the first source is held by all, so is the result, */
  lemma WholeFitsMirrored(f: seq<int> -> int, st: seq<State>, src: seq<Mat>, n: nat, s: State)
    requires Shaped(Elementwise(f), src) && AllSized(st, src, n) && NoneEmpty(src) && n >= 2 && st[0] == Mirrored
    requires Fits(Elementwise(f), st, src, n, s)
    ensures s == Mirrored
  {
    var one := Elementwise((v: seq<int>) => 1);
    Tried(Elementwise(f), st, src, n, s, one, src, 0);
    var full, outs := Apply(one, src), ApplyAll(one, Handed(src, st, n, 0), n);
    forall j | 0 <= j < n ensures outs[j].ne0 == full.ne0 && outs[j].ne1 == full.ne1 {
      ElementwiseExtents((v: seq<int>) => 1, src, st, n, 0, j);
    }
    FullEverywhere(s, full, outs);
    OnesAreNoParts(s, full, outs);
  }

  /** and then no other source may be cut. */
  lemma WholeNeedsWhole(f: seq<int> -> int, st: seq<State>, src: seq<Mat>, n: nat, s: State, k: nat)
    requires Shaped(Elementwise(f), src) && AllSized(st, src, n) && NoneEmpty(src) && n >= 2 && st[0] == Mirrored
    requires Fits(Elementwise(f), st, src, n, s) && k < |st|
    ensures st[k] == Mirrored
  {
    WholeFitsMirrored(f, st, src, n, s);
    assert Sized(st[k], src[k], n);
    if st[k].Split? {
      var op, zeros := Elementwise(Projection(k)), Zeros(src);
      Tried(Elementwise(f), st, src, n, s, op, zeros, 1);
      var j := SomeLess(st[k].ne);
      var i := st[k].ne[j];
      assert Extent(zeros[k], st[k].axis) == Extent(zeros[0], st[k].axis);
      SameAlong(Apply(op, zeros), ApplyAll(op, Handed(zeros, st, n, 1), n), j, st[k].axis, i);
      ProjectionAt(zeros, st, n, 1, k, j, st[k].axis, i);
      assert false;
    }
  }

  /** If the first source is cut, the result is cut alike, */
  lemma CutFitsCut(f: seq<int> -> int, st: seq<State>, src: seq<Mat>, n: nat, s: State)
    requires Shaped(Elementwise(f), src) && AllSized(st, src, n) && NoneEmpty(src) && n >= 2 && st[0].Split?
    requires Fits(Elementwise(f), st, src, n, s)
    ensures s == st[0]
  {
    var one := Elementwise((v: seq<int>) => 1);
    assert Sized(st[0], src[0], n);
    Tried(Elementwise(f), st, src, n, s, one, src, 0);
    var full, outs := Apply(one, src), ApplyAll(one, Handed(src, st, n, 0), n);
    forall j | 0 <= j < n
      ensures Extent(outs[j], st[0].axis) == st[0].ne[j]
      ensures Extent(outs[j], Other(st[0].axis)) == Extent(full, Other(st[0].axis))
    {
      ElementwiseExtents((v: seq<int>) => 1, src, st, n, 0, j);
    }
    CutEverywhere(s, full, outs, st[0].axis, st[0].ne);
  }

  /** What the devices have of the first source decides where the result is taken from source `k`. */
  lemma CutAlong(f: seq<int> -> int, st: seq<State>, src: seq<Mat>, n: nat, s: State, src': seq<Mat>, z: int, k: nat,
                 j: nat, i: nat)
    requires Shaped(Elementwise(f), src) && AllSized(st, src, n) && NoneEmpty(src) && n >= 2 && st[0].Split?
    requires Fits(Elementwise(f), st, src, n, s) && SameShapes(src', src) && k < |src| && j < n && i < st[0].ne[j]
    ensures Sized(st[k], src[k], n) && Sized(st[0], src[0], n)
    ensures At(PartOf(src'[k], st[k], j, z), st[0].axis, i) == At(src'[k], st[0].axis, Offset(st[0].ne, j) + i)
  {
    var op, axis := Elementwise(Projection(k)), st[0].axis;
    assert Sized(st[0], src[0], n) && Sized(st[k], src[k], n);
    CutFitsCut(f, st, src, n, s);
    TriedAlong(Elementwise(f), st, src, n, s, op, src', z, j, i);
    ProjectionAt(src', st, n, z, k, j, axis, i);
    ProjectionAt(src', st, n, z, k, j, axis, Offset(st[0].ne, j) + i);
  }

  lemma CutAcross(f: seq<int> -> int, st: seq<State>, src: seq<Mat>, n: nat, s: State, src': seq<Mat>, z: int, k: nat,
                  j: nat, i: nat)
    requires Shaped(Elementwise(f), src) && AllSized(st, src, n) && NoneEmpty(src) && n >= 2 && st[0].Split?
    requires Fits(Elementwise(f), st, src, n, s) && src' == Zeros(src) && k < |src| && j < n && 0 < st[0].ne[j]
    requires i < Extent(src[0], Other(st[0].axis))
    ensures Sized(st[k], src[k], n) && Sized(st[0], src[0], n)
    ensures At(PartOf(src'[k], st[k], j, z), Other(st[0].axis), i) == 0
  {
    var op, axis := Elementwise(Projection(k)), st[0].axis;
    assert Sized(st[0], src[0], n) && Sized(st[k], src[k], n);
    CutFitsCut(f, st, src, n, s);
    Tried(Elementwise(f), st, src, n, s, op, src', z);
    var full, outs := Apply(op, src'), ApplyAll(op, Handed(src', st, n, z), n);
    assert PieceAt(full, outs, axis, st[0].ne, j);
    ProjectionAt(src', st, n, z, k, j, Other(axis), i);
    ZeroProjection(src, k);
    PieceIsSmall(st[0].ne, j);
  }

  lemma ZeroProjection(src: seq<Mat>, k: nat)
    requires k < |src|
    ensures forall i0: nat, i1: nat :: Apply(Elementwise(Projection(k)), Zeros(src)).at(i0, i1) == 0
  {
    var zeros := Zeros(src);
    forall i0: nat, i1: nat ensures Apply(Elementwise(Projection(k)), zeros).at(i0, i1) == 0 {
      assert Values(zeros, i0, i1)[k] == 0;
    }
  }

  /** A source that differs from the first, which is cut: one device has all of both. */
  lemma CutNeedsHolder(f: seq<int> -> int, st: seq<State>, src: seq<Mat>, n: nat, s: State, k: nat) returns (h: nat)
    requires Shaped(Elementwise(f), src) && AllSized(st, src, n) && NoneEmpty(src) && n >= 2 && st[0].Split?
    requires Fits(Elementwise(f), st, src, n, s) && k < |st| && st[k] != st[0]
    ensures h < n == |st[0].ne| && st[0].ne[h] > 0 && HasAll(st[0], h) && HasAll(st[k], h)
  {
    assert Sized(st[0], src[0], n) && Sized(st[k], src[k], n);
    assert src[k].ne0 == src[0].ne0 && src[k].ne1 == src[0].ne1;
    h := SomePositive(st[0].ne);
    match st[k]
    case Mirrored =>
      StartsAtZero(f, st, src, n, s, k);
      ZeroOffsets(st[0].ne, h);
    case Split(axis, ne) =>
      if axis == st[0].axis {
        SameCut(f, st, src, n, s, k);
        assert false;
      } else {
        forall j | 0 <= j < n && st[0].ne[j] > 0 ensures ne[j] == Offset(ne, n) {
          HasAllAcross(f, st, src, n, s, k, j);
        }
        HolderHasAll(st[k], h);
        forall j | 0 <= j < n && j != h ensures st[0].ne[j] == 0 { TwoPieces(ne, h, j); }
      }
  }

  /** Pieces that start at 0: only one of them is not empty. */
  lemma ZeroOffsets(ne: seq<nat>, h: nat)
    requires h < |ne| && ne[h] > 0 && forall j :: 0 <= j < |ne| && ne[j] > 0 ==> Offset(ne, j) == 0
    ensures forall j :: 0 <= j < |ne| && j != h ==> ne[j] == 0
  {
    forall j | 0 <= j < |ne| && j != h ensures ne[j] == 0 {
      if j < h { TwoPieces(ne, j, h); } else { TwoPieces(ne, h, j); }
    }
  }

  /** Next to a source that all devices have, every piece has to start at 0. */
  lemma StartsAtZero(f: seq<int> -> int, st: seq<State>, src: seq<Mat>, n: nat, s: State, k: nat)
    requires Shaped(Elementwise(f), src) && AllSized(st, src, n) && NoneEmpty(src) && n >= 2 && st[0].Split?
    requires Fits(Elementwise(f), st, src, n, s) && k < |st| && st[k] == Mirrored
    ensures |st[0].ne| == n && forall j :: 0 <= j < n && st[0].ne[j] > 0 ==> Offset(st[0].ne, j) == 0
  {
    assert Sized(st[0], src[0], n);
    forall j | 0 <= j < n && st[0].ne[j] > 0 ensures Offset(st[0].ne, j) == 0 {
      CutAlong(f, st, src, n, s, Places(src, st[0].axis), 0, k, j, 0);
    }
  }

  /** A source that is cut along the same axis is cut alike. */
  lemma SameCut(f: seq<int> -> int, st: seq<State>, src: seq<Mat>, n: nat, s: State, k: nat)
    requires Shaped(Elementwise(f), src) && AllSized(st, src, n) && NoneEmpty(src) && n >= 2 && st[0].Split?
    requires Fits(Elementwise(f), st, src, n, s) && k < |st| && st[k].Split? && st[k].axis == st[0].axis
    ensures st[k] == st[0]
  {
    assert Sized(st[0], src[0], n) && Sized(st[k], src[k], n);
    assert src[k].ne0 == src[0].ne0 && src[k].ne1 == src[0].ne1;
    var ne, ne' := st[0].ne, st[k].ne;
    forall j | 0 <= j < n ensures ne[j] <= ne'[j] {
      PieceIsSmall(ne, j);
      if ne'[j] < ne[j] { CutAlong(f, st, src, n, s, Zeros(src), 1, k, j, ne'[j]); }
    }
    SamePieces(ne, ne');
  }

  /** Of a source that is cut along the other axis, whoever has a piece of the first has all. */
  lemma HasAllAcross(f: seq<int> -> int, st: seq<State>, src: seq<Mat>, n: nat, s: State, k: nat, j: nat)
    requires Shaped(Elementwise(f), src) && AllSized(st, src, n) && NoneEmpty(src) && n >= 2 && st[0].Split?
    requires Fits(Elementwise(f), st, src, n, s) && k < |st| && st[k].Split? && st[k].axis != st[0].axis && j < n
    requires Sized(st[0], src[0], n) && st[0].ne[j] > 0
    ensures |st[k].ne| == n && st[k].ne[j] == Offset(st[k].ne, n)
  {
    assert Sized(st[k], src[k], n);
    assert src[k].ne0 == src[0].ne0 && src[k].ne1 == src[0].ne1;
    PieceIsSmall(st[k].ne, j);
    if st[k].ne[j] < Offset(st[k].ne, n) { CutAcross(f, st, src, n, s, Zeros(src), 1, k, j, st[k].ne[j]); }
  }

  /** Elementwise operations: if the states of the sources are not equal, some state fits only if one device
      has all that is cut, the first source included. */
  lemma ElementwiseFits(f: seq<int> -> int, st: seq<State>, src: seq<Mat>, n: nat, s: State)
    requires Shaped(Elementwise(f), src) && AllSized(st, src, n) && NoneEmpty(src) && n >= 2
    requires Fits(Elementwise(f), st, src, n, s) && Generic(st).None?
    ensures st[0].Split? && OneHolder(st)
  {
    var k :| 0 <= k < |st| && st[k] != st[0];
    assert Sized(st[0], src[0], n);
    if st[0] == Mirrored {
      WholeNeedsWhole(f, st, src, n, s, k);
      assert false;
    } else {
      var h := CutNeedsHolder(f, st, src, n, s, k);
      forall l | 0 <= l < |st| ensures HasAll(st[l], h) {
        if st[l] != st[0] {
          var h' := CutNeedsHolder(f, st, src, n, s, l);
          assert h' == h;
        }
      }
      assert OneHas(st, h);
    }
  }

  // ---- operations that repeat the second source

  function Second(): (int, int) -> int {
    (x: int, y: int) => y
  }

  lemma SecondAt(a: Mat, b: Mat, i0: nat, i1: nat)
    ensures Apply(Broadcast(Second()), [a, b]).at(i0, i1) == b.at(Rem(i0, b.ne0), Rem(i1, b.ne1))
  {
  }

  lemma SecondAlong(a: Mat, b: Mat, axis: nat, i: nat)
    ensures At(Apply(Broadcast(Second()), [a, b]), axis, i) == At(b, axis, Rem(i, Extent(b, axis)))
  {
    RemIsSmall(0, b.ne0);
    RemIsSmall(0, b.ne1);
    if axis == 0 { SecondAt(a, b, i, 0); } else { SecondAt(a, b, 0, i); }
  }

  /** An operation that returns its second source, repeated. */
  lemma RepeatedSecond(src: seq<Mat>, st: seq<State>, n: nat, z: int, j: nat, axis: nat, i: nat)
    requires AllSized(st, src, n) && |src| == 2 && j < n
    ensures var op := Broadcast(Second()); var part := PartOf(src[1], st[1], j, z);
            && At(Apply(op, src), axis, i) == At(src[1], axis, Rem(i, Extent(src[1], axis)))
            && At(ApplyAll(op, Handed(src, st, n, z), n)[j], axis, i) == At(part, axis, Rem(i, Extent(part, axis)))
    ensures Sized(st[1], src[1], n)
  {
    assert Sized(st[1], src[1], n);
    var here := OnDevice(Handed(src, st, n, z), j);
    assert here == [here[0], PartOf(src[1], st[1], j, z)] && src == [src[0], src[1]];
    SecondAlong(src[0], src[1], axis, i);
    SecondAlong(here[0], here[1], axis, i);
  }

  lemma BroadcastExtents(g: (int, int) -> int, src: seq<Mat>, st: seq<State>, n: nat, z: int, j: nat)
    requires AllSized(st, src, n) && |src| == 2 && j < n
    ensures var out := ApplyAll(Broadcast(g), Handed(src, st, n, z), n)[j];
            out.ne0 == PartOf(src[0], st[0], j, z).ne0 && out.ne1 == PartOf(src[0], st[0], j, z).ne1
    ensures Sized(st[0], src[0], n)
  {
    assert OnDevice(Handed(src, st, n, z), j)[0] == PartOf(src[0], st[0], j, z);
  }

  /** The result is held like the first source. */
  lemma BroadcastFitsFirst(g: (int, int) -> int, st: seq<State>, src: seq<Mat>, n: nat, s: State)
    requires Shaped(Broadcast(g), src) && AllSized(st, src, n) && NoneEmpty(src) && n >= 2
    requires Fits(Broadcast(g), st, src, n, s)
    ensures s == st[0]
  {
    var h := (x: int, y: int) => 1;
    var one := Broadcast(h);
    assert Sized(st[0], src[0], n);
    Tried(Broadcast(g), st, src, n, s, one, src, 0);
    var full, outs := Apply(one, src), ApplyAll(one, Handed(src, st, n, 0), n);
    forall j | 0 <= j < n
      ensures outs[j].ne0 == PartOf(src[0], st[0], j, 0).ne0 && outs[j].ne1 == PartOf(src[0], st[0], j, 0).ne1
    {
      BroadcastExtents(h, src, st, n, 0, j);
    }
    match st[0]
    case Mirrored =>
      FullEverywhere(s, full, outs);
      OnesAreNoParts(s, full, outs);
    case Split(axis, ne) =>
      CutEverywhere(s, full, outs, axis, ne);
  }

  /** Extents along an axis: the second source goes into the first a whole number of times. */
  lemma GoesInto(g: (int, int) -> int, src: seq<Mat>, axis: nat)
    requires Shaped(Broadcast(g), src) && NoneEmpty(src) && axis <= 1
    ensures 0 < Extent(src[1], axis) <= Extent(src[0], axis)
  {
    var a, b := Extent(src[0], axis), Extent(src[1], axis);
    assert a % b == 0;
    if a < b { QuotientIs(a, b, 0, a); }
  }

  /** A second source that is cut while the first is not is found wrong by some device. */
  lemma RepeatedNeedsWhole(g: (int, int) -> int, st: seq<State>, src: seq<Mat>, n: nat, s: State)
    requires Shaped(Broadcast(g), src) && AllSized(st, src, n) && NoneEmpty(src) && n >= 2 && st[0] == Mirrored
    requires Fits(Broadcast(g), st, src, n, s)
    ensures st[1] == Mirrored
  {
    BroadcastFitsFirst(g, st, src, n, s);
    assert Sized(st[1], src[1], n);
    if st[1].Split? {
      var axis, ne := st[1].axis, st[1].ne;
      var places := Places(src, axis);
      var op := Broadcast(Second());
      Tried(Broadcast(g), st, src, n, s, op, places, -1);
      GoesInto(g, src, axis);
      var j := SomeLess(ne);
      var full, outs := Apply(op, places), ApplyAll(op, Handed(places, st, n, -1), n);
      SameAlong(full, outs, j, axis, 0);
      SameAlong(full, outs, j, axis, ne[j]);
      SizedLikewise(st, src, places, n);
      RemIsSmall(0, ne[j]);
      RemIsSmall(0, Extent(src[1], axis));
      RemIsSmall(ne[j], Extent(src[1], axis));
      SelfRem(ne[j]);
      RepeatedSecond(places, st, n, -1, j, axis, 0);
      RepeatedSecond(places, st, n, -1, j, axis, ne[j]);
      assert false;
    }
  }

  lemma SelfRem(n: nat)
    ensures Rem(n, n) == 0
  {
  }

  /** What a device finds of a second source where its piece of the first lies. */
  lemma RepeatedAlong(g: (int, int) -> int, st: seq<State>, src: seq<Mat>, n: nat, s: State, j: nat, i: nat)
    requires Shaped(Broadcast(g), src) && AllSized(st, src, n) && NoneEmpty(src) && n >= 2 && st[0].Split?
    requires Fits(Broadcast(g), st, src, n, s) && j < n && Sized(st[0], src[0], n) && i < st[0].ne[j]
    ensures Sized(st[1], src[1], n)
    ensures Found(src, st[0].axis, st[1], j, i) == Rem(Offset(st[0].ne, j) + i, Extent(src[1], st[0].axis))
  {
    PieceFound(g, st, src, n, s, j, i);
    FoundWhere(src, st[0].axis, st[1], j, i, Offset(st[0].ne, j) + i);
  }

  lemma FoundWhere(src: seq<Mat>, axis: nat, s: State, j: nat, i: nat, x: nat)
    requires |src| == 2 && (s.Split? ==> j < |s.ne|)
    requires Found(src, axis, s, j, i) == At(Apply(Broadcast(Second()), Places(src, axis)), axis, x)
    ensures Found(src, axis, s, j, i) == Rem(x, Extent(src[1], axis))
  {
    SecondPlace(src, axis, x);
  }

  lemma PieceFound(g: (int, int) -> int, st: seq<State>, src: seq<Mat>, n: nat, s: State, j: nat, i: nat)
    requires Shaped(Broadcast(g), src) && AllSized(st, src, n) && NoneEmpty(src) && n >= 2 && st[0].Split?
    requires Fits(Broadcast(g), st, src, n, s) && j < n && Sized(st[0], src[0], n) && i < st[0].ne[j]
    ensures Sized(st[1], src[1], n)
    ensures Found(src, st[0].axis, st[1], j, i)
         == At(Apply(Broadcast(Second()), Places(src, st[0].axis)), st[0].axis, Offset(st[0].ne, j) + i)
  {
    PieceOfRepeated(g, st, src, n, s, j, i);
    FoundIs(src, st, n, st[0].axis, j, i);
  }

  lemma PieceOfRepeated(g: (int, int) -> int, st: seq<State>, src: seq<Mat>, n: nat, s: State, j: nat, i: nat)
    requires Shaped(Broadcast(g), src) && AllSized(st, src, n) && NoneEmpty(src) && n >= 2 && st[0].Split?
    requires Fits(Broadcast(g), st, src, n, s) && j < n && Sized(st[0], src[0], n) && i < st[0].ne[j]
    ensures AllSized(st, Places(src, st[0].axis), n)
    ensures var op, axis := Broadcast(Second()), st[0].axis; var places := Places(src, axis);
            At(ApplyAll(op, Handed(places, st, n, -1), n)[j], axis, i)
            == At(Apply(op, places), axis, Offset(st[0].ne, j) + i)
  {
    BroadcastFitsFirst(g, st, src, n, s);
    TriedAlong(Broadcast(g), st, src, n, s, Broadcast(Second()), Places(src, st[0].axis), -1, j, i);
  }

  lemma SecondPlace(src: seq<Mat>, axis: nat, x: nat)
    requires |src| == 2
    ensures At(Apply(Broadcast(Second()), Places(src, axis)), axis, x) == Rem(x, Extent(src[1], axis))
  {
    var places := Places(src, axis);
    assert places == [places[0], places[1]];
    SecondAlong(places[0], places[1], axis, x);
    PlaceIs(src, axis, 1, Rem(x, Extent(src[1], axis)));
  }

  /** The place that device `j` takes for place `i` of the repeated source. */
  ghost function Found(src: seq<Mat>, axis: nat, s: State, j: nat, i: nat): int
    requires |src| == 2 && (s.Split? ==> j < |s.ne|)
  {
    var part := PartOf(Places(src, axis)[1], s, j, -1);
    At(part, axis, Rem(i, Extent(part, axis)))
  }

  lemma FoundIs(src: seq<Mat>, st: seq<State>, n: nat, axis: nat, j: nat, i: nat)
    requires |src| == 2 && AllSized(st, src, n) && j < n
    ensures AllSized(st, Places(src, axis), n) && Sized(st[1], src[1], n)
    ensures At(ApplyAll(Broadcast(Second()), Handed(Places(src, axis), st, n, -1), n)[j], axis, i)
         == Found(src, axis, st[1], j, i)
  {
    SizedLikewise(st, src, Places(src, axis), n);
    RepeatedSecond(Places(src, axis), st, n, -1, j, axis, i);
    assert Sized(st[1], src[1], n);
  }

  lemma PlaceIs(src: seq<Mat>, axis: nat, k: nat, i: nat)
    requires k < |src|
    ensures At(Places(src, axis)[k], axis, i) == i
    ensures Extent(Places(src, axis)[k], axis) == Extent(src[k], axis)
  {
  }

  lemma RepeatedAcross(g: (int, int) -> int, st: seq<State>, src: seq<Mat>, n: nat, s: State, j: nat, i: nat)
    requires Shaped(Broadcast(g), src) && AllSized(st, src, n) && NoneEmpty(src) && n >= 2 && st[0].Split?
    requires Fits(Broadcast(g), st, src, n, s) && j < n && Sized(st[0], src[0], n) && 0 < st[0].ne[j]
    requires i < Extent(src[0], Other(st[0].axis))
    ensures Sized(st[1], src[1], n)
    ensures Found(src, Other(st[0].axis), st[1], j, i) == Rem(i, Extent(src[1], Other(st[0].axis)))
  {
    var op, axis, across := Broadcast(Second()), st[0].axis, Other(st[0].axis);
    var places := Places(src, across);
    assert Sized(st[1], src[1], n);
    BroadcastFitsFirst(g, st, src, n, s);
    Tried(Broadcast(g), st, src, n, s, op, places, -1);
    var full, outs := Apply(op, places), ApplyAll(op, Handed(places, st, n, -1), n);
    assert PieceAt(full, outs, axis, st[0].ne, j);
    PieceIsSmall(st[0].ne, j);
    SecondAnywhere(places, across);
    FoundIs(src, st, n, across, j, i);
  }

  /** Repeated places along an axis do not depend on the other coordinate. */
  lemma SecondAnywhere(places: seq<Mat>, across: nat)
    requires |places| == 2 && across <= 1
    requires forall i0: nat, i1: nat :: places[1].at(i0, i1) == if across == 0 then i0 else i1
    ensures forall i0: nat, i1: nat ::
        Apply(Broadcast(Second()), places).at(i0, i1)
        == if across == 0 then Rem(i0, places[1].ne0) else Rem(i1, places[1].ne1)
  {
    assert places == [places[0], places[1]];
    forall i0: nat, i1: nat ensures Apply(Broadcast(Second()), places).at(i0, i1)
        == if across == 0 then Rem(i0, places[1].ne0) else Rem(i1, places[1].ne1)
    {
      SecondAt(places[0], places[1], i0, i1);
    }
  }

  lemma FoundOfWhole(src: seq<Mat>, axis: nat, j: nat)
    requires |src| == 2
    ensures Found(src, axis, Mirrored, j, 0) == 0
  {
    RemIsSmall(0, Extent(src[1], axis));
    PlaceIs(src, axis, 1, 0);
  }

  lemma FoundOfPiece(src: seq<Mat>, axis: nat, ne: seq<nat>, j: nat, i: nat)
    requires |src| == 2 && axis <= 1 && j < |ne|
    ensures Found(src, axis, Split(axis, ne), j, i) == if ne[j] == 0 then -1 else Offset(ne, j) + Rem(i, ne[j])
  {
    RemIsSmall(i, ne[j]);
    if ne[j] > 0 { PlaceIs(src, axis, 1, Offset(ne, j) + Rem(i, ne[j])); }
  }

  /** Every piece of the first source starts where the repetition starts anew. */
  predicate StartsAnew(s: State, p: nat) {
    s.Split? ==> forall j :: 0 <= j < |s.ne| && s.ne[j] > 0 ==> Rem(Offset(s.ne, j), p) == 0
  }

  /** A repeated source that all devices have: pieces of the first start where the repetition starts anew. */
  lemma RepeatedWhole(g: (int, int) -> int, st: seq<State>, src: seq<Mat>, n: nat, s: State)
    requires Shaped(Broadcast(g), src) && AllSized(st, src, n) && NoneEmpty(src) && n >= 2 && st[0].Split?
    requires Fits(Broadcast(g), st, src, n, s) && st[1] == Mirrored
    ensures StartsAnew(st[0], Extent(src[1], st[0].axis))
  {
    assert Sized(st[0], src[0], n);
    forall j | 0 <= j < n && st[0].ne[j] > 0 ensures Rem(Offset(st[0].ne, j), Extent(src[1], st[0].axis)) == 0 {
      RepeatedAlong(g, st, src, n, s, j, 0);
      FoundOfWhole(src, st[0].axis, j);
    }
  }

  lemma WholePeriod(x: nat, d: nat, p: nat)
    requires 0 < d <= p && Rem(x + d, p) == Rem(x, p)
    ensures d == p
  {
    var q, r := x / p, x % p;
    assert x == p * q + r;
    if d < p {
      if r + d < p { QuotientIs(x + d, p, q, r + d); }
      else {
        assert p * (q + 1) == p * q + p;
        QuotientIs(x + d, p, q + 1, r + d - p);
      }
    }
  }

  /** Both sources are cut along the same axis, but not alike: one device has all of them. */
  lemma RepeatedCutAlike(g: (int, int) -> int, st: seq<State>, src: seq<Mat>, n: nat, s: State)
    requires Shaped(Broadcast(g), src) && AllSized(st, src, n) && NoneEmpty(src) && n >= 2 && st[0].Split?
    requires Fits(Broadcast(g), st, src, n, s) && st[1].Split? && st[1].axis == st[0].axis && st[1] != st[0]
    ensures OneHolder(st)
  {
    assert Sized(st[0], src[0], n) && Sized(st[1], src[1], n);
    var ne, ne' := st[0].ne, st[1].ne;
    GoesInto(g, src, st[0].axis);
    if forall j :: 0 <= j < n ==> ne[j] <= ne'[j] { SamePieces(ne, ne'); }
    var h :| 0 <= h < n && ne'[h] < ne[h];
    PieceNotEmpty(g, st, src, n, s, h);
    LargerNeedsAll(g, st, src, n, s, h);
    HolderHasAll(st[1], h);
    forall j | 0 <= j < n && j != h ensures ne[j] == 0 {
      if ne[j] > 0 { PieceNotEmpty(g, st, src, n, s, j); }
    }
    assert OneHas(st, h);
  }

  lemma PieceNotEmpty(g: (int, int) -> int, st: seq<State>, src: seq<Mat>, n: nat, s: State, j: nat)
    requires Shaped(Broadcast(g), src) && AllSized(st, src, n) && NoneEmpty(src) && n >= 2 && st[0].Split?
    requires Fits(Broadcast(g), st, src, n, s) && st[1].Split? && st[1].axis == st[0].axis
    requires Sized(st[0], src[0], n) && j < n && st[0].ne[j] > 0
    ensures |st[1].ne| == n && st[1].ne[j] > 0
  {
    assert Sized(st[1], src[1], n);
    RepeatedAlong(g, st, src, n, s, j, 0);
    FoundOfPiece(src, st[0].axis, st[1].ne, j, 0);
  }

  lemma LargerNeedsAll(g: (int, int) -> int, st: seq<State>, src: seq<Mat>, n: nat, s: State, j: nat)
    requires Shaped(Broadcast(g), src) && AllSized(st, src, n) && NoneEmpty(src) && n >= 2 && st[0].Split?
    requires Fits(Broadcast(g), st, src, n, s) && st[1].Split? && st[1].axis == st[0].axis
    requires Sized(st[0], src[0], n) && Sized(st[1], src[1], n) && j < n && 0 < st[1].ne[j] < st[0].ne[j]
    ensures st[1].ne[j] == Offset(st[1].ne, n)
  {
    var axis, d := st[0].axis, st[1].ne[j];
    RepeatedAlong(g, st, src, n, s, j, 0);
    RepeatedAlong(g, st, src, n, s, j, d);
    FoundOfPiece(src, axis, st[1].ne, j, 0);
    FoundOfPiece(src, axis, st[1].ne, j, d);
    SelfRem(d);
    RemIsSmall(0, d);
    PieceIsSmall(st[1].ne, j);
    WholePeriod(Offset(st[0].ne, j), d, Extent(src[1], axis));
  }

  /** The sources are cut along different axes: one device has all of both. */
  lemma RepeatedCutAcross(g: (int, int) -> int, st: seq<State>, src: seq<Mat>, n: nat, s: State)
    requires Shaped(Broadcast(g), src) && AllSized(st, src, n) && NoneEmpty(src) && n >= 2 && st[0].Split?
    requires Fits(Broadcast(g), st, src, n, s) && st[1].Split? && st[1].axis != st[0].axis
    ensures OneHolder(st)
  {
    assert Sized(st[0], src[0], n) && Sized(st[1], src[1], n);
    var h := SomePositive(st[0].ne);
    forall j | 0 <= j < n && st[0].ne[j] > 0 ensures st[1].ne[j] == Offset(st[1].ne, n) {
      AcrossNeedsAll(g, st, src, n, s, j);
    }
    HolderHasAll(st[1], h);
    forall j | 0 <= j < n && j != h ensures st[0].ne[j] == 0 { TwoPieces(st[1].ne, h, j); }
    assert OneHas(st, h);
  }

  lemma AcrossNeedsAll(g: (int, int) -> int, st: seq<State>, src: seq<Mat>, n: nat, s: State, j: nat)
    requires Shaped(Broadcast(g), src) && AllSized(st, src, n) && NoneEmpty(src) && n >= 2 && st[0].Split?
    requires Fits(Broadcast(g), st, src, n, s) && st[1].Split? && st[1].axis != st[0].axis
    requires Sized(st[0], src[0], n) && Sized(st[1], src[1], n) && j < n && st[0].ne[j] > 0
    ensures st[1].ne[j] == Offset(st[1].ne, n)
  {
    var axis, d := st[1].axis, st[1].ne[j];
    GoesInto(g, src, axis);
    PieceIsSmall(st[1].ne, j);
    RemIsSmall(0, Extent(src[1], axis));
    RemIsSmall(0, d);
    FoundOfPiece(src, axis, st[1].ne, j, 0);
    RepeatedAcross(g, st, src, n, s, j, 0);
    if d < Offset(st[1].ne, n) {
      RemIsSmall(d, Extent(src[1], axis));
      SelfRem(d);
      FoundOfPiece(src, axis, st[1].ne, j, d);
      RepeatedAcross(g, st, src, n, s, j, d);
    }
  }

  /** Operations that repeat the second source: what else fits than equal states. */
  lemma BroadcastFits(g: (int, int) -> int, st: seq<State>, src: seq<Mat>, n: nat, s: State)
    requires Shaped(Broadcast(g), src) && AllSized(st, src, n) && NoneEmpty(src) && n >= 2
    requires Fits(Broadcast(g), st, src, n, s) && st[0] != st[1]
    ensures st[0].Split?
    ensures OneHolder(st) || (st[1] == Mirrored && StartsAnew(st[0], Extent(src[1], st[0].axis)))
  {
    assert Sized(st[0], src[0], n) && Sized(st[1], src[1], n);
    if st[0] == Mirrored {
      RepeatedNeedsWhole(g, st, src, n, s);
      assert false;
    } else if st[1] == Mirrored {
      RepeatedWhole(g, st, src, n, s);
    } else if st[1].axis == st[0].axis {
      RepeatedCutAlike(g, st, src, n, s);
    } else {
      RepeatedCutAcross(g, st, src, n, s);
    }
  }

  // ---- operations on rows

  /** The row of a length that says how long the row of the source is. */
  function Length(): seq<int> -> seq<int> {
    (v: seq<int>) => seq(|v| + 1, _ => |v|)
  }

  function OneAll(): seq<int> -> seq<int> {
    (v: seq<int>) => seq(|v| + 1, _ => 1)
  }

  lemma LengthAt(a: Mat, scalar: bool, i0: nat, i1: nat)
    requires i0 <= a.ne0
    ensures Apply(PerRow(Length(), scalar), [a]).at(i0, i1) == a.ne0
    ensures Apply(PerRow(OneAll(), scalar), [a]).at(i0, i1) == 1
  {
    assert |Row(a, i1)| == a.ne0;
  }

  /** What device `j` computes of the only source. */
  lemma RowsOfDevice(r: seq<int> -> seq<int>, scalar: bool, src: seq<Mat>, st: seq<State>, n: nat, j: nat)
    requires |src| == 1 && AllSized(st, src, n) && j < n
    ensures Sized(st[0], src[0], n) && src == [src[0]]
    ensures ApplyAll(PerRow(r, scalar), Handed(src, st, n, 0), n)[j]
         == Apply(PerRow(r, scalar), [PartOf(src[0], st[0], j, 0)])
  {
    assert Sized(st[0], src[0], n);
    assert OnDevice(Handed(src, st, n, 0), j) == [PartOf(src[0], st[0], j, 0)];
  }

  /** If rows are cut, some state fits only if one device has all of them and results are rows, too. */
  lemma RowsFit(r: seq<int> -> seq<int>, scalar: bool, st: seq<State>, src: seq<Mat>, n: nat, s: State)
    requires Shaped(PerRow(r, scalar), src) && AllSized(st, src, n) && NoneEmpty(src) && n >= 2
    requires Fits(PerRow(r, scalar), st, src, n, s) && st[0].Split? && st[0].axis == 0
    ensures !scalar && OneHolder(st)
  {
    assert Sized(st[0], src[0], n);
    var ne := st[0].ne;
    if scalar {
      ScalarsDoNotFit(r, st, src, n, s);
      assert false;
    } else {
      var h := SomePositive(ne);
      RowsAreCut(r, st, src, n, s);
      forall j | 0 <= j < n && ne[j] > 0 ensures ne[j] == Offset(ne, n) { PieceIsRow(r, st, src, n, s, j); }
      HolderHasAll(st[0], h);
      assert OneHas(st, h);
    }
  }

  lemma RowsAreCut(r: seq<int> -> seq<int>, st: seq<State>, src: seq<Mat>, n: nat, s: State)
    requires Shaped(PerRow(r, false), src) && AllSized(st, src, n) && NoneEmpty(src) && n >= 2
    requires Fits(PerRow(r, false), st, src, n, s) && st[0].Split? && st[0].axis == 0
    ensures s == st[0]
  {
    assert Sized(st[0], src[0], n);
    var op := PerRow(Length(), false);
    Tried(PerRow(r, false), st, src, n, s, op, src, 0);
    var full, outs := Apply(op, src), ApplyAll(op, Handed(src, st, n, 0), n);
    forall j | 0 <= j < n
      ensures Extent(outs[j], 0) == st[0].ne[j] && Extent(outs[j], 1) == Extent(full, 1)
    {
      RowsOfDevice(Length(), false, src, st, n, j);
    }
    CutEverywhere(s, full, outs, 0, st[0].ne);
  }

  lemma PieceIsRow(r: seq<int> -> seq<int>, st: seq<State>, src: seq<Mat>, n: nat, s: State, j: nat)
    requires Shaped(PerRow(r, false), src) && AllSized(st, src, n) && NoneEmpty(src) && n >= 2
    requires Fits(PerRow(r, false), st, src, n, s) && st[0].Split? && st[0].axis == 0 && s == st[0]
    requires Sized(st[0], src[0], n) && j < n && st[0].ne[j] > 0
    ensures st[0].ne[j] == Offset(st[0].ne, n)
  {
    var op := PerRow(Length(), false);
    TriedAlong(PerRow(r, false), st, src, n, s, op, src, 0, j, 0);
    RowsOfDevice(Length(), false, src, st, n, j);
    PieceIsSmall(st[0].ne, j);
    LengthAt(PartOf(src[0], st[0], j, 0), false, 0, 0);
    LengthAt(src[0], false, Offset(st[0].ne, j), 0);
  }

  lemma ScalarsDoNotFit(r: seq<int> -> seq<int>, st: seq<State>, src: seq<Mat>, n: nat, s: State)
    requires Shaped(PerRow(r, true), src) && AllSized(st, src, n) && NoneEmpty(src) && n >= 2
    requires st[0].Split? && st[0].axis == 0
    ensures !Fits(PerRow(r, true), st, src, n, s)
  {
    if Fits(PerRow(r, true), st, src, n, s) {
      ScalarsAreWhole(r, st, src, n, s);
      assert Sized(st[0], src[0], n);
      var op := PerRow(Length(), true);
      Tried(PerRow(r, true), st, src, n, s, op, src, 0);
      var j := SomeLess(st[0].ne);
      var full, outs := Apply(op, src), ApplyAll(op, Handed(src, st, n, 0), n);
      RowsOfDevice(Length(), true, src, st, n, j);
      LengthAt(PartOf(src[0], st[0], j, 0), true, 0, 0);
      LengthAt(src[0], true, 0, 0);
      SameAlong(full, outs, j, 0, 0);
      assert false;
    }
  }

  lemma ScalarsAreWhole(r: seq<int> -> seq<int>, st: seq<State>, src: seq<Mat>, n: nat, s: State)
    requires Shaped(PerRow(r, true), src) && AllSized(st, src, n) && NoneEmpty(src) && n >= 2
    requires Fits(PerRow(r, true), st, src, n, s) && st[0].Split? && st[0].axis == 0
    ensures s == Mirrored
  {
    assert Sized(st[0], src[0], n);
    var op := PerRow(OneAll(), true);
    Tried(PerRow(r, true), st, src, n, s, op, src, 0);
    var full, outs := Apply(op, src), ApplyAll(op, Handed(src, st, n, 0), n);
    forall j | 0 <= j < n
      ensures outs[j].ne0 == full.ne0 && outs[j].ne1 == full.ne1 && outs[j].at(0, 0) == 1
    {
      RowsOfDevice(OneAll(), true, src, st, n, j);
      LengthAt(PartOf(src[0], st[0], j, 0), true, 0, 0);
    }
    RowsOfDevice(OneAll(), true, src, st, n, 0);
    LengthAt(src[0], true, 0, 0);
    FullEverywhere(s, full, outs);
    OnesAreNoParts(s, full, outs);
  }

  // ---- products

  /** What device `j` computes of the two factors. */
  lemma ProductOfDevice(src: seq<Mat>, st: seq<State>, n: nat, z: int, j: nat)
    requires |src| == 2 && AllSized(st, src, n) && j < n
    ensures Sized(st[0], src[0], n) && Sized(st[1], src[1], n) && src == [src[0], src[1]]
    ensures ApplyAll(MulMat, Handed(src, st, n, z), n)[j]
         == Apply(MulMat, [PartOf(src[0], st[0], j, z), PartOf(src[1], st[1], j, z)])
  {
    assert Sized(st[0], src[0], n) && Sized(st[1], src[1], n);
    assert OnDevice(Handed(src, st, n, z), j) == [PartOf(src[0], st[0], j, z), PartOf(src[1], st[1], j, z)];
  }

  lemma ProductExtents(src: seq<Mat>, st: seq<State>, n: nat, z: int, j: nat)
    requires |src| == 2 && AllSized(st, src, n) && j < n
    ensures var out := ApplyAll(MulMat, Handed(src, st, n, z), n)[j];
            Sized(st[0], src[0], n) && Sized(st[1], src[1], n)
            && out.ne0 == PartOf(src[0], st[0], j, z).ne1 && out.ne1 == PartOf(src[1], st[1], j, z).ne1
  {
    ProductOfDevice(src, st, n, z, j);
  }

  /** A row of ones times a column that is zero up to `size` and one behind. */
  lemma {:induction false} DotCounts(a: Mat, b: Mat, m: nat, n: nat, size: nat, k: nat)
    requires forall i: nat :: i < k ==> a.at(i, m) == 1 && b.at(i, n) == if i < size then 0 else 1
    ensures Dot(a, b, m, n, k) == if k > size then k - size else 0
  {
    if k > 0 { DotCounts(a, b, m, n, size, k - 1); }
  }

  /** A row with a single one. */
  lemma {:induction false} DotPicks(a: Mat, b: Mat, m: nat, n: nat, x: int, k: nat)
    requires forall i: nat :: i < k ==> a.at(i, m) == if i == x then 1 else 0
    ensures Dot(a, b, m, n, k) == if 0 <= x < k then b.at(x, n) else 0
  {
    if k > 0 { DotPicks(a, b, m, n, x, k - 1); }
  }

  /** Ones times zeros: a device that has more of the first factor than of the second finds ones. */
  function OnesAndZeros(src: seq<Mat>): (r: seq<Mat>)
    requires |src| == 2
    ensures SameShapes(r, src)
  {
    [Ones(src[0].ne0, src[0].ne1), Mat(src[1].ne0, src[1].ne1, (i0: nat, i1: nat) => 0)]
  }

  /** How much device `j` has along the axis that is summed over. */
  function Inner(s: State, a: Mat, j: nat): nat
    requires s.Split? ==> j < |s.ne|
  {
    if s.Split? && s.axis == 0 then s.ne[j] else a.ne0
  }

  /** Device `j` has some of the columns. */
  predicate HasColumns(s: State, j: nat)
    requires s.Split? ==> j < |s.ne|
  {
    s.Split? && s.axis != 0 ==> s.ne[j] > 0
  }

  lemma CountsMissing(src: seq<Mat>, st: seq<State>, n: nat, j: nat)
    requires |src| == 2 && src[0].ne0 == src[1].ne0 && AllSized(st, src, n) && NoneEmpty(src) && j < n
    requires Sized(st[0], src[0], n) && Sized(st[1], src[1], n) && HasColumns(st[0], j) && HasColumns(st[1], j)
    ensures AllSized(st, OnesAndZeros(src), n) && Apply(MulMat, OnesAndZeros(src)).at(0, 0) == 0
    ensures var a, b := Inner(st[0], src[0], j), Inner(st[1], src[1], j);
            ApplyAll(MulMat, Handed(OnesAndZeros(src), st, n, 1), n)[j].at(0, 0) == if a > b then a - b else 0
  {
    var zs := OnesAndZeros(src);
    SizedLikewise(st, src, zs, n);
    ProductOfDevice(zs, st, n, 1, j);
    DotCounts(zs[0], zs[1], 0, 0, src[1].ne0, src[0].ne0);
    var a, b := PartOf(zs[0], st[0], j, 1), PartOf(zs[1], st[1], j, 1);
    if st[0].Split? { PieceIsSmall(st[0].ne, j); }
    assert a.ne0 == Inner(st[0], src[0], j) <= src[0].ne0;
    DotCounts(a, b, 0, 0, Inner(st[1], src[1], j), a.ne0);
  }

  lemma {:induction false} NothingInSum(v: seq<int>, j: nat, k: nat)
    requires j <= |v| && k < j && (forall i :: 0 <= i < |v| ==> v[i] >= 0)
    ensures 0 <= v[k] <= AllReduce.Sum(v, 0, j)
  {
    if k < j - 1 { NothingInSum(v, j - 1, k); } else { NotNegativeSum(v, j - 1); }
  }

  lemma {:induction false} NotNegativeSum(v: seq<int>, j: nat)
    requires j <= |v| && (forall i :: 0 <= i < |v| ==> v[i] >= 0)
    ensures 0 <= AllReduce.Sum(v, 0, j)
  {
    if j > 0 { NotNegativeSum(v, j - 1); }
  }

  lemma {:induction false} OnlyOneInSum(v: seq<int>, k: nat, j: nat)
    requires j <= |v| && k < |v| && (forall i :: 0 <= i < |v| && i != k ==> v[i] == 0)
    ensures AllReduce.Sum(v, 0, j) == if k < j then v[k] else 0
  {
    if j > 0 { OnlyOneInSum(v, k, j - 1); }
  }

  /** If the result is nothing and no device has less, every device has nothing. */
  lemma NothingAnywhere(s: State, full: Mat, outs: seq<Mat>, j: nat)
    requires Holds(s, full, outs) && !s.Split? && full.ne0 > 0 && full.ne1 > 0 && full.at(0, 0) == 0 && j < |outs|
    requires forall i :: 0 <= i < |outs| ==> outs[i].at(0, 0) >= 0
    ensures outs[j].at(0, 0) == 0
  {
    match s
    case Mirrored => assert Same(full, outs[j]);
    case Partial => NothingInSum(Column(outs, 0, 0), |outs|, j);
  }

  /** If neither result has its columns cut, no device has more of the first factor than of the second. */
  lemma NothingMissing(st: seq<State>, src: seq<Mat>, n: nat, s: State, j: nat)
    requires Shaped(MulMat, src) && AllSized(st, src, n) && NoneEmpty(src) && n >= 2 && Fits(MulMat, st, src, n, s)
    requires (st[0].Split? ==> st[0].axis == 0) && (st[1].Split? ==> st[1].axis == 0) && j < n
    ensures Sized(st[0], src[0], n) && Sized(st[1], src[1], n) && !s.Split?
    ensures Inner(st[0], src[0], j) <= Inner(st[1], src[1], j)
  {
    var zs := OnesAndZeros(src);
    Tried(MulMat, st, src, n, s, MulMat, zs, 1);
    var full, outs := Apply(MulMat, zs), ApplyAll(MulMat, Handed(zs, st, n, 1), n);
    assert Sized(st[0], src[0], n) && Sized(st[1], src[1], n);
    forall i | 0 <= i < n
      ensures outs[i].ne0 == full.ne0 && outs[i].ne1 == full.ne1 && outs[i].at(0, 0) >= 0
    {
      ProductExtents(zs, st, n, 1, i);
      CountsMissing(src, st, n, i);
    }
    FullEverywhere(s, full, outs);
    CountsMissing(src, st, n, j);
    NothingAnywhere(s, full, outs, j);
  }

  /** The second factor cut along the inner axis: the first is cut alike. */
  lemma InnerCutAlike(st: seq<State>, src: seq<Mat>, n: nat, s: State)
    requires Shaped(MulMat, src) && AllSized(st, src, n) && NoneEmpty(src) && n >= 2 && Fits(MulMat, st, src, n, s)
    requires (st[0].Split? ==> st[0].axis == 0) && st[1].Split? && st[1].axis == 0
    ensures st[0] == st[1]
  {
    assert Sized(st[0], src[0], n) && Sized(st[1], src[1], n);
    forall j | 0 <= j < n ensures Inner(st[0], src[0], j) <= st[1].ne[j] { NothingMissing(st, src, n, s, j); }
    if st[0].Split? {
      SamePieces(st[0].ne, st[1].ne);
    } else {
      var j := SomeLess(st[1].ne);
      assert false;
    }
  }

  /** Columns of both factors cut: nothing fits. */
  lemma ColumnsOfBoth(st: seq<State>, src: seq<Mat>, n: nat, s: State)
    requires Shaped(MulMat, src) && AllSized(st, src, n) && NoneEmpty(src) && n >= 2
    requires st[0].Split? && st[0].axis != 0 && st[1].Split? && st[1].axis != 0
    ensures !Fits(MulMat, st, src, n, s)
  {
    if Fits(MulMat, st, src, n, s) {
      Tried(MulMat, st, src, n, s, MulMat, src, 0);
      var full, outs := Apply(MulMat, src), ApplyAll(MulMat, Handed(src, st, n, 0), n);
      assert Sized(st[0], src[0], n) && Sized(st[1], src[1], n);
      var i := SomeLess(st[0].ne);
      var j := SomeLess(st[1].ne);
      ProductExtents(src, st, n, 0, i);
      ProductExtents(src, st, n, 0, j);
      NotCutTwice(s, full, outs, i, j);
    }
  }

  lemma NotCutTwice(s: State, full: Mat, outs: seq<Mat>, i: nat, j: nat)
    requires i < |outs| && j < |outs| && outs[i].ne0 < full.ne0 && outs[j].ne1 < full.ne1
    ensures !Holds(s, full, outs)
  {
    if Holds(s, full, outs) {
      ExtentsOfPart(s, full, outs, i);
      ExtentsOfPart(s, full, outs, j);
      assert false;
    }
  }

  /** Columns of the first factor, and the second along the inner axis: one device has all of both. */
  lemma ColumnsOfFirst(st: seq<State>, src: seq<Mat>, n: nat, s: State)
    requires Shaped(MulMat, src) && AllSized(st, src, n) && NoneEmpty(src) && n >= 2 && Fits(MulMat, st, src, n, s)
    requires st[0].Split? && st[0].axis == 1 && st[1].Split? && st[1].axis == 0
    ensures OneHolder(st)
  {
    assert Sized(st[0], src[0], n) && Sized(st[1], src[1], n);
    ResultIsCut(st, src, n, s, 0);
    forall j | 0 <= j < n && st[0].ne[j] > 0 ensures st[1].ne[j] == Offset(st[1].ne, n) {
      InnerOfColumns(st, src, n, s, j);
    }
    FirstFollows(st, 0, n);
  }

  /** Columns of one factor only give a result that is cut like them. */
  lemma ResultIsCut(st: seq<State>, src: seq<Mat>, n: nat, s: State, k: nat)
    requires Shaped(MulMat, src) && AllSized(st, src, n) && NoneEmpty(src) && n >= 2 && Fits(MulMat, st, src, n, s)
    requires k < 2 && st[k].Split? && st[k].axis == 1 && st[1 - k].Split? && st[1 - k].axis == 0
    ensures s == Split(k, st[k].ne)
  {
    assert Sized(st[0], src[0], n) && Sized(st[1], src[1], n);
    Tried(MulMat, st, src, n, s, MulMat, src, 0);
    var full, outs := Apply(MulMat, src), ApplyAll(MulMat, Handed(src, st, n, 0), n);
    forall j | 0 <= j < n
      ensures Extent(outs[j], k) == st[k].ne[j] && Extent(outs[j], Other(k)) == Extent(full, Other(k))
    {
      ProductExtents(src, st, n, 0, j);
    }
    CutEverywhere(s, full, outs, k, st[k].ne);
  }

  lemma InnerOfColumns(st: seq<State>, src: seq<Mat>, n: nat, s: State, j: nat)
    requires Shaped(MulMat, src) && AllSized(st, src, n) && NoneEmpty(src) && n >= 2 && Fits(MulMat, st, src, n, s)
    requires st[0].Split? && st[0].axis == 1 && st[1].Split? && st[1].axis == 0 && s == Split(0, st[0].ne)
    requires Sized(st[0], src[0], n) && Sized(st[1], src[1], n) && j < n && st[0].ne[j] > 0
    ensures st[1].ne[j] == Offset(st[1].ne, n)
  {
    var zs := OnesAndZeros(src);
    TriedAlong(MulMat, st, src, n, s, MulMat, zs, 1, j, 0);
    CountsMissing(src, st, n, j);
    NoOnesInZeros(src, Offset(st[0].ne, j));
    PieceIsSmall(st[1].ne, j);
  }

  lemma NoOnesInZeros(src: seq<Mat>, m: nat)
    requires |src| == 2 && src[0].ne0 == src[1].ne0
    ensures Apply(MulMat, OnesAndZeros(src)).at(m, 0) == 0
  {
    var zs := OnesAndZeros(src);
    DotCounts(zs[0], zs[1], m, 0, src[1].ne0, src[0].ne0);
  }

  /** Whoever has a piece of one source has all of the other: one device has all of both. */
  lemma FirstFollows(st: seq<State>, k: nat, n: nat)
    requires |st| == 2 && k < 2 && st[0].Split? && st[1].Split? && |st[0].ne| == |st[1].ne| == n
    requires Offset(st[0].ne, n) > 0 && Offset(st[1].ne, n) > 0
    requires forall j :: 0 <= j < n && st[k].ne[j] > 0 ==> st[1 - k].ne[j] == Offset(st[1 - k].ne, n)
    ensures OneHolder(st)
  {
    var h := SomePositive(st[k].ne);
    HolderHasAll(st[1 - k], h);
    forall j | 0 <= j < n && j != h ensures st[k].ne[j] == 0 { TwoPieces(st[1 - k].ne, h, j); }
    assert HasAll(st[k], h) && HasAll(st[1 - k], h);
    assert OneHas(st, h);
  }

  /** The first factor along the inner axis, and columns of the second: again one device has all. */
  lemma ColumnsOfSecond(st: seq<State>, src: seq<Mat>, n: nat, s: State)
    requires Shaped(MulMat, src) && AllSized(st, src, n) && NoneEmpty(src) && n >= 2 && Fits(MulMat, st, src, n, s)
    requires st[0].Split? && st[0].axis == 0 && st[1].Split? && st[1].axis == 1
    ensures OneHolder(st)
  {
    assert Sized(st[0], src[0], n) && Sized(st[1], src[1], n);
    ResultIsCut(st, src, n, s, 1);
    forall j | 0 <= j < n && st[1].ne[j] > 0 ensures st[0].ne[j] == Offset(st[0].ne, n) {
      InnerOfRows(st, src, n, s, j);
    }
    FirstFollows(st, 1, n);
  }

  lemma InnerOfRows(st: seq<State>, src: seq<Mat>, n: nat, s: State, j: nat)
    requires Shaped(MulMat, src) && AllSized(st, src, n) && NoneEmpty(src) && n >= 2 && Fits(MulMat, st, src, n, s)
    requires st[0].Split? && st[0].axis == 0 && st[1].Split? && st[1].axis == 1 && s == Split(1, st[1].ne)
    requires Sized(st[0], src[0], n) && Sized(st[1], src[1], n) && j < n && st[1].ne[j] > 0
    ensures st[0].ne[j] == Offset(st[0].ne, n)
  {
    var ones := [Ones(src[0].ne0, src[0].ne1), Ones(src[1].ne0, src[1].ne1)];
    TriedAlong(MulMat, st, src, n, s, MulMat, ones, 1, j, 0);
    ProductOfDevice(ones, st, n, 1, j);
    DotOfOnes(ones[0], ones[1], 0, Offset(st[1].ne, j), src[0].ne0);
    DotOfOnes(PartOf(ones[0], st[0], j, 1), PartOf(ones[1], st[1], j, 1), 0, 0, st[0].ne[j]);
  }

  /** A row with a one at its end, and a column that counts from one. */
  function EndAndCount(src: seq<Mat>): (r: seq<Mat>)
    requires |src| == 2
    ensures SameShapes(r, src)
  {
    var k := src[0].ne0;
    [Mat(src[0].ne0, src[0].ne1, (i0: nat, i1: nat) => if i0 + 1 == k then 1 else 0),
     Mat(src[1].ne0, src[1].ne1, (i0: nat, i1: nat) => i0 + 1)]
  }

  /** Only the device whose piece reaches the end finds anything: the size of its piece. */
  lemma EndOfPiece(st: seq<State>, src: seq<Mat>, n: nat, j: nat)
    requires Shaped(MulMat, src) && AllSized(st, src, n) && NoneEmpty(src) && j < n
    requires st[0].Split? && st[0].axis == 0 && st[1] == Mirrored
    ensures Sized(st[0], src[0], n) && AllSized(st, EndAndCount(src), n)
    ensures ApplyAll(MulMat, Handed(EndAndCount(src), st, n, 0), n)[j].at(0, 0)
         == if Offset(st[0].ne, j) + st[0].ne[j] == src[0].ne0 then st[0].ne[j] else 0
  {
    var zs := EndAndCount(src);
    SizedLikewise(st, src, zs, n);
    ProductOfDevice(zs, st, n, 0, j);
    var off, size := Offset(st[0].ne, j), st[0].ne[j];
    PieceIsSmall(st[0].ne, j);
    DotPicks(PartOf(zs[0], st[0], j, 0), zs[1], 0, 0, src[0].ne0 as int - 1 - off, size);
  }

  lemma {:induction false} EndIsReached(ne: seq<nat>, m: nat) returns (j: nat)
    requires m <= |ne| && Offset(ne, m) > 0
    ensures j < m && ne[j] > 0 && Offset(ne, j) + ne[j] == Offset(ne, m)
  {
    if ne[m - 1] > 0 { j := m - 1; } else { j := EndIsReached(ne, m - 1); }
  }

  /** The first factor along the inner axis, and the second held by all: one device has all of the first. */
  lemma InnerOfFirst(st: seq<State>, src: seq<Mat>, n: nat, s: State)
    requires Shaped(MulMat, src) && AllSized(st, src, n) && NoneEmpty(src) && n >= 2 && Fits(MulMat, st, src, n, s)
    requires st[0].Split? && st[0].axis == 0 && st[1] == Mirrored
    ensures OneHolder(st)
  {
    assert Sized(st[0], src[0], n);
    NothingMissing(st, src, n, s, 0);
    var zs, ne := EndAndCount(src), st[0].ne;
    Tried(MulMat, st, src, n, s, MulMat, zs, 0);
    var full, outs := Apply(MulMat, zs), ApplyAll(MulMat, Handed(zs, st, n, 0), n);
    DotPicks(zs[0], zs[1], 0, 0, src[0].ne0 - 1, src[0].ne0);
    assert full.at(0, 0) == src[0].ne0;
    var h := EndIsReached(ne, n);
    forall j | 0 <= j < n ensures outs[j].at(0, 0) == if j == h then ne[h] else 0 {
      EndOfPiece(st, src, n, j);
      if j != h { OneEnd(ne, h, j); }
    }
    TakesTheEnd(s, full, outs, h);
    HolderHasAll(st[0], h);
    assert OneHas(st, h);
  }

  /** Of two pieces that reach the end, one is empty. */
  lemma OneEnd(ne: seq<nat>, h: nat, j: nat)
    requires h < |ne| && j < |ne| && j != h && ne[h] > 0 && Offset(ne, h) + ne[h] == Offset(ne, |ne|)
    ensures Offset(ne, j) + ne[j] == Offset(ne, |ne|) ==> ne[j] == 0
  {
    if j < h { OffsetsGrow(ne, j + 1, h); } else { OffsetsGrow(ne, h + 1, j); OffsetsGrow(ne, j + 1, |ne|); }
  }

  /** If only device `h` has something, it has everything. */
  lemma TakesTheEnd(s: State, full: Mat, outs: seq<Mat>, h: nat)
    requires Holds(s, full, outs) && !s.Split? && |outs| >= 2 && h < |outs| && full.ne0 > 0 && full.ne1 > 0
    requires full.at(0, 0) > 0 && forall j :: 0 <= j < |outs| && j != h ==> outs[j].at(0, 0) == 0
    ensures outs[h].at(0, 0) == full.at(0, 0)
  {
    match s
    case Mirrored => assert Same(full, outs[h]);
    case Partial => OnlyOneInSum(Column(outs, 0, 0), h, |outs|);
  }

  /** Products: what else fits than the four accepted cases. */
  lemma ProductFits(st: seq<State>, src: seq<Mat>, n: nat, s: State)
    requires Shaped(MulMat, src) && AllSized(st, src, n) && NoneEmpty(src) && n >= 2 && Fits(MulMat, st, src, n, s)
    requires Rule(MulMat, st, src).None?
    ensures st[0].Split? && (if st[1].Split? then st[0].axis != st[1].axis else st[0].axis == 0) && OneHolder(st)
  {
    assert Sized(st[0], src[0], n) && Sized(st[1], src[1], n);
    if st[1].Split? && st[1].axis == 0 && !(st[0].Split? && st[0].axis == 1) {
      InnerCutAlike(st, src, n, s);
      assert false;
    } else if st[0].Split? && st[0].axis == 1 && st[1].Split? && st[1].axis == 1 {
      ColumnsOfBoth(st, src, n, s);
      assert false;
    } else if st[1] == Mirrored {
      InnerOfFirst(st, src, n, s);
    } else if st[1].axis == 0 {
      ColumnsOfFirst(st, src, n, s);
    } else {
      ColumnsOfSecond(st, src, n, s);
    }
  }

  // ---- what fits although it is not accepted

  lemma HolderHasWhole(s: State, a: Mat, parts: seq<Mat>, h: nat)
    requires Holds(s, a, parts) && s != Partial && HasAll(s, h) && h < |parts|
    ensures Same(a, parts[h])
  {
    if s.Split? {
      HolderHasSum(s.ne, h, h);
      HolderHasSum(s.ne, h, |s.ne|);
      assert PieceAt(a, parts, s.axis, s.ne, h);
    }
  }

  /** A device that has all of the sources computes the whole result. */
  lemma HolderComputesAll(op: Op, st: seq<State>, src: seq<Mat>, parts: seq<seq<Mat>>, n: nat, h: nat)
    requires Shaped(op, src) && AllHold(st, src, parts, n) && OneHas(st, h) && h < n
    ensures Same(Apply(op, src), ApplyAll(op, parts, n)[h])
  {
    var here := OnDevice(parts, h);
    forall k | 0 <= k < |src| ensures Same(src[k], here[k]) {
      assert SourceHolds(st, src, parts, n, k) && HasAll(st[k], h);
      HolderHasWhole(st[k], src[k], parts[k], h);
    }
    match op
    case MulMat =>
      assert src == [src[0], src[1]] && here == [here[0], here[1]];
      MulMatMirrored(src[0], src[1], here[0], here[1]);
    case Elementwise(f) => ElementwiseSame(f, src, here);
    case Broadcast(g) =>
      assert src == [src[0], src[1]] && here == [here[0], here[1]];
      BroadcastSame(g, src[0], src[1], here[0], here[1]);
    case PerRow(r, scalar) =>
      assert src == [src[0]] && here == [here[0]];
      RowSame(r, scalar, src[0], here[0]);
  }

  /** A result that device `h` has all of, and the others none, is cut like that. */
  lemma CutAtHolder(full: Mat, outs: seq<Mat>, axis: nat, ne: seq<nat>, h: nat)
    requires axis <= 1 && h < |ne| == |outs| && Same(full, outs[h]) && HasAll(Split(axis, ne), h)
    requires Offset(ne, |ne|) == Extent(full, axis)
    requires forall j :: 0 <= j < |outs| && j != h ==>
        Extent(outs[j], axis) == 0 && Extent(outs[j], Other(axis)) == Extent(full, Other(axis))
    ensures Holds(Split(axis, ne), full, outs)
  {
    HolderHasSum(ne, h, h);
    HolderHasSum(ne, h, |ne|);
    forall j | 0 <= j < |outs| ensures PieceAt(full, outs, axis, ne, j) {
      if j != h { assert ne[j] == 0 && Extent(outs[j], axis) == 0; }
    }
  }

  /** The state that fits when one device has all that is cut. */
  function HolderState(op: Op, st: seq<State>): State
    requires |st| > 0 && (op.MulMat? ==> |st| == 2)
  {
    match op
    case MulMat =>
      if !st[1].Split? then Partial
      else if st[1].axis == 0 && st[0].Split? then Split(0, st[0].ne) else Split(1, st[1].ne)
    case _ => st[0]
  }

  /** The extents of what device `j` has of a source. */
  lemma PartExtents(st: seq<State>, src: seq<Mat>, parts: seq<seq<Mat>>, n: nat, k: nat, j: nat)
    requires AllHold(st, src, parts, n) && k < |src| && j < n
    ensures |parts[k]| == n && (st[k].Split? ==> st[k].axis <= 1 && |st[k].ne| == n)
    ensures parts[k][j].ne0 == if st[k].Split? && st[k].axis == 0 then st[k].ne[j] else src[k].ne0
    ensures parts[k][j].ne1 == if st[k].Split? && st[k].axis == 1 then st[k].ne[j] else src[k].ne1
    ensures st[k].Split? ==> Offset(st[k].ne, n) == Extent(src[k], st[k].axis)
  {
    assert SourceHolds(st, src, parts, n, k);
    if st[k].Split? { assert PieceAt(src[k], parts[k], st[k].axis, st[k].ne, j); }
  }

  /** One device has all that is cut, and the first source is cut: the result is cut like the first source. */
  lemma HolderFits(op: Op, st: seq<State>, src: seq<Mat>, parts: seq<seq<Mat>>, n: nat, h: nat)
    requires Shaped(op, src) && !op.MulMat? && (op.PerRow? ==> !op.scalar)
    requires AllHold(st, src, parts, n) && OneHas(st, h) && st[0].Split?
    ensures Holds(st[0], Apply(op, src), ApplyAll(op, parts, n))
  {
    var full, outs := Apply(op, src), ApplyAll(op, parts, n);
    assert HasAll(st[0], h);
    assert SourceHolds(st, src, parts, n, 0);
    HolderComputesAll(op, st, src, parts, n, h);
    forall j | 0 <= j < n && j != h
      ensures Extent(outs[j], st[0].axis) == 0
      ensures Extent(outs[j], Other(st[0].axis)) == Extent(full, Other(st[0].axis))
    {
      PartExtents(st, src, parts, n, 0, j);
      assert OnDevice(parts, j)[0] == parts[0][j];
    }
    CutAtHolder(full, outs, st[0].axis, st[0].ne, h);
  }

  /** The same for the columns of one factor and the inner axis of the other. */
  lemma HolderFitsProduct(st: seq<State>, src: seq<Mat>, parts: seq<seq<Mat>>, n: nat, h: nat, k: nat)
    requires Shaped(MulMat, src) && AllHold(st, src, parts, n) && OneHas(st, h) && k < 2
    requires st[k].Split? && st[k].axis == 1 && st[1 - k].Split? && st[1 - k].axis == 0
    ensures Holds(Split(k, st[k].ne), Apply(MulMat, src), ApplyAll(MulMat, parts, n))
  {
    var full, outs := Apply(MulMat, src), ApplyAll(MulMat, parts, n);
    assert HasAll(st[k], h);
    assert SourceHolds(st, src, parts, n, k);
    HolderComputesAll(MulMat, st, src, parts, n, h);
    forall j | 0 <= j < n && j != h
      ensures Extent(outs[j], k) == 0 && Extent(outs[j], Other(k)) == Extent(full, Other(k))
    {
      PartExtents(st, src, parts, n, 0, j);
      PartExtents(st, src, parts, n, 1, j);
      assert OnDevice(parts, j) == [parts[0][j], parts[1][j]];
    }
    PartExtents(st, src, parts, n, k, h);
    CutAtHolder(full, outs, k, st[k].ne, h);
  }

  /** All of the first factor on one device, the others find nothing: the results add up. */
  lemma HolderAddsUp(st: seq<State>, src: seq<Mat>, parts: seq<seq<Mat>>, n: nat, h: nat)
    requires Shaped(MulMat, src) && AllHold(st, src, parts, n) && OneHas(st, h)
    requires st[0].Split? && st[0].axis == 0 && st[1] == Mirrored
    ensures Holds(Partial, Apply(MulMat, src), ApplyAll(MulMat, parts, n))
  {
    var full, outs := Apply(MulMat, src), ApplyAll(MulMat, parts, n);
    assert HasAll(st[0], h);
    assert SourceHolds(st, src, parts, n, 0);
    HolderComputesAll(MulMat, st, src, parts, n, h);
    forall j | 0 <= j < n
      ensures outs[j].ne0 == full.ne0 && outs[j].ne1 == full.ne1
      ensures j != h ==> forall i0: nat, i1: nat :: outs[j].at(i0, i1) == 0
    {
      PartExtents(st, src, parts, n, 0, j);
      PartExtents(st, src, parts, n, 1, j);
      assert OnDevice(parts, j) == [parts[0][j], parts[1][j]];
    }
    forall i0: nat, i1: nat | i0 < full.ne0 && i1 < full.ne1
      ensures full.at(i0, i1) == AllReduce.Sum(Column(outs, i0, i1), 0, n)
    {
      OnlyOneInSum(Column(outs, i0, i1), h, n);
    }
  }

  lemma AnewAgain(off: nat, i: nat, p: nat)
    requires p > 0 && Rem(off, p) == 0
    ensures Rem(off + i, p) == Rem(i, p)
  {
    var q, q', r := off / p, i / p, i % p;
    assert off == p * q && i == p * q' + r;
    Distribute(p, q, q');
    QuotientIs(off + i, p, q + q', r);
  }

  /** Pieces that start where the repetition starts anew. */
  lemma AnewFits(g: (int, int) -> int, st: seq<State>, src: seq<Mat>, parts: seq<seq<Mat>>, n: nat)
    requires Shaped(Broadcast(g), src) && AllHold(st, src, parts, n) && st[0].Split? && st[1] == Mirrored
    requires StartsAnew(st[0], Extent(src[1], st[0].axis))
    ensures Holds(st[0], Apply(Broadcast(g), src), ApplyAll(Broadcast(g), parts, n))
  {
    var full, outs := Apply(Broadcast(g), src), ApplyAll(Broadcast(g), parts, n);
    assert SourceHolds(st, src, parts, n, 0) && SourceHolds(st, src, parts, n, 1);
    forall j | 0 <= j < n ensures PieceAt(full, outs, st[0].axis, st[0].ne, j) {
      assert OnDevice(parts, j) == [parts[0][j], parts[1][j]] && src == [src[0], src[1]];
      assert PieceAt(src[0], parts[0], st[0].axis, st[0].ne, j) && Same(src[1], parts[1][j]);
      PieceIsSmall(st[0].ne, j);
      AnewPiece(g, src[0], src[1], parts[0][j], parts[1][j], st[0].axis, Offset(st[0].ne, j), st[0].ne[j]);
    }
  }

  lemma AnewPiece(g: (int, int) -> int, a: Mat, b: Mat, a': Mat, b': Mat, axis: nat, off: nat, n: nat)
    requires Shaped(Broadcast(g), [a, b]) && axis <= 1 && Piece(a, a', axis, off, n) && off + n <= Extent(a, axis)
    requires Same(b, b') && (n > 0 ==> Rem(off, Extent(b, axis)) == 0)
    ensures Piece(Apply(Broadcast(g), [a, b]), Apply(Broadcast(g), [a', b']), axis, off, n)
  {
    var w, w' := Apply(Broadcast(g), [a, b]), Apply(Broadcast(g), [a', b']);
    var d0, d1 := if axis == 0 then n else a.ne0, if axis == 0 then a.ne1 else n;
    forall i0: nat, i1: nat | i0 < d0 && i1 < d1
      ensures w'.at(i0, i1) == w.at(Whole0(axis, off, i0), Whole1(axis, off, i1))
    {
      AnewAt(b, b', axis, off, i0, i1);
    }
  }

  lemma AnewAt(b: Mat, b': Mat, axis: nat, off: nat, i0: nat, i1: nat)
    requires Same(b, b') && b.ne0 > 0 && b.ne1 > 0 && axis <= 1 && Rem(off, Extent(b, axis)) == 0
    ensures b'.at(Rem(i0, b'.ne0), Rem(i1, b'.ne1))
        == b.at(Rem(Whole0(axis, off, i0), b.ne0), Rem(Whole1(axis, off, i1), b.ne1))
  {
    AnewAgain(off, if axis == 0 then i0 else i1, Extent(b, axis));
    RemIsSmall(i0, b.ne0);
    RemIsSmall(i1, b.ne1);
  }

  /** States of the sources that the rules refuse although a state of the result fits: one device has all
      that is cut, or a repeated source starts anew with every piece. */
  ghost predicate FitsAnyway(op: Op, st: seq<State>, src: seq<Mat>)
    requires Shaped(op, src) && |st| == |src|
  {
    st[0].Split? &&
    match op
    case MulMat => (if st[1].Split? then st[0].axis != st[1].axis else st[0].axis == 0) && OneHolder(st)
    case Elementwise(_) => OneHolder(st)
    case Broadcast(_) =>
      OneHolder(st) || (st[1] == Mirrored && StartsAnew(st[0], Extent(src[1], st[0].axis)))
    case PerRow(_, scalar) => !scalar && OneHolder(st)
  }

  lemma AnywayFits(op: Op, st: seq<State>, src: seq<Mat>, n: nat)
    requires Shaped(op, src) && AllSized(st, src, n) && FitsAnyway(op, st, src)
    ensures Fits(op, st, src, n, HolderState(op, st))
  {
    var s := HolderState(op, st);
    forall op': Op, src': seq<Mat>, parts: seq<seq<Mat>> ensures FitsAt(op, st, src, n, s, op', src', parts) {
      if SameKind(op, op') && SameShapes(src', src) && AllHold(st, src', parts, n) {
        AnywayHolds(op', st, src', parts, n);
      }
    }
  }

  lemma AnywayHolds(op: Op, st: seq<State>, src: seq<Mat>, parts: seq<seq<Mat>>, n: nat)
    requires Shaped(op, src) && AllHold(st, src, parts, n) && FitsAnyway(op, st, src)
    ensures Holds(HolderState(op, st), Apply(op, src), ApplyAll(op, parts, n))
  {
    assert SourceHolds(st, src, parts, n, 0);
    if OneHolder(st) {
      var h: nat :| OneHas(st, h);
      match op
      case MulMat =>
        assert SourceHolds(st, src, parts, n, 1);
        if st[1].Split? { HolderFitsProduct(st, src, parts, n, h, if st[1].axis == 0 then 0 else 1); }
        else { HolderAddsUp(st, src, parts, n, h); }
      case _ => HolderFits(op, st, src, parts, n, h);
    } else {
      AnewFits(op.g, st, src, parts, n);
    }
  }

  /** On a single device every state fits, */
  lemma SingleFits(op: Op, st: seq<State>, src: seq<Mat>)
    requires Shaped(op, src) && AllSized(st, src, 1)
    ensures Fits(op, st, src, 1, Mirrored)
  {
    forall k | 0 <= k < |st| ensures HasAll(st[k], 0) { assert Sized(st[k], src[k], 1); }
    forall op': Op, src': seq<Mat>, parts: seq<seq<Mat>> ensures FitsAt(op, st, src, 1, Mirrored, op', src', parts) {
      if SameKind(op, op') && SameShapes(src', src) && AllHold(st, src', parts, 1) {
        HolderComputesAll(op', st, src', parts, 1, 0);
      }
    }
  }

  /** and what is accepted always does. */
  lemma AcceptedFits(op: Op, st: seq<State>, src: seq<Mat>, n: nat)
    requires Shaped(op, src) && AllSized(st, src, n) && Infer(op, st, src).Some?
    ensures Fits(op, st, src, n, Infer(op, st, src).value)
  {
    var s := Infer(op, st, src).value;
    forall op': Op, src': seq<Mat>, parts: seq<seq<Mat>> ensures FitsAt(op, st, src, n, s, op', src', parts) {
      if SameKind(op, op') && SameShapes(src', src) && AllHold(st, src', parts, n) {
        InferredLikewise(op, op', st, src, src');
        InferIsRule(op', st, src', parts, n);
        RuleHolds(op', st, src', parts, n);
      }
    }
  }

  /** The inferred state depends on the kind of the operation and the shapes only. */
  lemma InferredLikewise(op: Op, op': Op, st: seq<State>, src: seq<Mat>, src': seq<Mat>)
    requires Shaped(op, src) && |st| == |src| && SameKind(op, op') && SameShapes(src', src)
    ensures Shaped(op', src') && Infer(op', st, src') == Infer(op, st, src)
  {
    assert Rule(op', st, src') == Rule(op, st, src);
    assert Apply(op', src').ne0 == Apply(op, src).ne0 && Apply(op', src').ne1 == Apply(op, src).ne1;
    forall ne: seq<nat>, extent: nat ensures Consistent(st, src', ne, extent) == Consistent(st, src, ne, extent) {
      ConsistentLikewise(st, src, src', ne, extent);
      ConsistentLikewise(st, src', src, ne, extent);
    }
  }

  lemma ConsistentLikewise(st: seq<State>, src: seq<Mat>, src': seq<Mat>, ne: seq<nat>, extent: nat)
    requires |st| == |src| && SameShapes(src', src)
    ensures Consistent(st, src, ne, extent) ==> Consistent(st, src', ne, extent)
  {
    forall k | 0 <= k < |st| && st[k].Split?
      ensures Extent(src'[k], st[k].axis) == Extent(src[k], st[k].axis)
    {
    }
  }

  /** No rule is undone by the sizes. */
  lemma RuleIsInferred(op: Op, st: seq<State>, src: seq<Mat>, n: nat)
    requires Shaped(op, src) && AllSized(st, src, n) && Rule(op, st, src).Some?
    ensures Infer(op, st, src).Some?
  {
    var r := Rule(op, st, src).value;
    if r.Split? {
      var k := FirstSplit(st, 0);
      forall l | 0 <= l < |st| ensures Sized(st[l], src[l], n) {}
      assert k < |st| && st[k].ne == r.ne;
      SameRatio(r.ne, Extent(src[k], st[k].axis));
    }
  }

  /** For sources that have elements and are held as their states say, none of them in parts: some state of the
      result fits, whatever the values and the function of the operation are, if and only if the rules
      accept the sources, and then they name such a state; or there is one device; or one device has all
      that is cut, or a repeated source starts anew with every piece. */
  lemma AcceptedExactly(op: Op, st: seq<State>, src: seq<Mat>, n: nat)
    requires Shaped(op, src) && AllSized(st, src, n) && NoneEmpty(src) && n > 0
    ensures Infer(op, st, src).Some? ==> Fits(op, st, src, n, Infer(op, st, src).value)
    ensures (exists s :: Fits(op, st, src, n, s)) <==>
            Infer(op, st, src).Some? || n == 1 || FitsAnyway(op, st, src)
  {
    if Infer(op, st, src).Some? { AcceptedFits(op, st, src, n); }
    if n == 1 { SingleFits(op, st, src); }
    if FitsAnyway(op, st, src) { AnywayFits(op, st, src, n); }
    if s :| Fits(op, st, src, n, s) && n > 1 && Infer(op, st, src).None? { RefusedFits(op, st, src, n, s); }
  }

  lemma RefusedFits(op: Op, st: seq<State>, src: seq<Mat>, n: nat, s: State)
    requires Shaped(op, src) && AllSized(st, src, n) && NoneEmpty(src) && n >= 2 && Infer(op, st, src).None?
    requires Fits(op, st, src, n, s)
    ensures FitsAnyway(op, st, src)
  {
    if Rule(op, st, src).Some? { RuleIsInferred(op, st, src, n); }
    assert Sized(st[0], src[0], n);
    match op
    case MulMat => ProductFits(st, src, n, s);
    case Elementwise(f) => ElementwiseFits(f, st, src, n, s);
    case Broadcast(g) => BroadcastFits(g, st, src, n, s);
    case PerRow(r, scalar) => RowsFit(r, scalar, st, src, n, s);
  }

  /** With a source in parts, exactly the sources are accepted that are all in parts, for any operation but the
      product, and the result is in parts. */
  lemma PartsAccepted(op: Op, st: seq<State>, src: seq<Mat>, k: nat)
    requires Shaped(op, src) && |st| == |src| && k < |st| && st[k] == Partial
    ensures Infer(op, st, src) ==
        if op.MulMat? || exists l :: 0 <= l < |st| && st[l] != Partial then None else Some(Partial)
  {
    match op
    case MulMat => assert st[0] == Partial || st[1] == Partial;
    case Elementwise(_) => if forall l :: 0 <= l < |st| ==> st[l] == st[0] { assert st[k] == st[0]; }
    case Broadcast(_) => if forall l :: 0 <= l < |st| ==> st[l] == st[0] { assert st[k] == st[0]; }
    case PerRow(_, _) => assert k == 0;
  }
}
