/** What each step of the memory planner does to its state, and the invariant every step keeps. */
module PlannerSpec {
  import opened Wrappers
  import opened Chunks
  import opened DynTallocrs
  import opened Graphs
  import opened Executions

  /** The planner's record of a tensor. */
  datatype HashNode = HashNode(nChildren: int, nViews: int, bufferId: nat, addr: Addr, held: bool)

  const BLANK := HashNode(0, 0, 0, Addr(0, 0), false)

  /** Records of all tensors, and the chunks of every buffer. */
  datatype PState = PState(hn: seq<HashNode>, views: seq<seq<View>>)

  /** What a buffer's allocator was told: the alignment, and how large a chunk may become. */
  datatype BufferKind = BufferKind(alignment: nat, maxChunkSize: nat)

  type Buffers = a: seq<BufferKind> | forall b :: 0 <= b < |a| ==> a[b].alignment > 0

  function PlaceOf(h: HashNode): Place {
    Place(h.bufferId, h.addr)
  }

  function PlanOf(hn: seq<HashNode>): (p: Plan)
    ensures |p| == |hn| && forall t :: 0 <= t < |hn| ==> p[t] == PlaceOf(hn[t])
  {
    seq(|hn|, t requires 0 <= t < |hn| => PlaceOf(hn[t]))
  }

  /** Bytes reserved for `t` in buffer `b`. */
  function Reserved(g: Graph, al: Buffers, t: nat, b: nat): nat
    requires t < |g.tensors| && b < |al|
  {
    AlignUp(Size(g, t, b), al[b].alignment)
  }

  ghost predicate SizesOk(g: Graph, al: Buffers) {
    forall t, b :: 0 <= t < |g.tensors| && 0 <= b < |al| ==> Size(g, t, b) > 0 && Reserved(g, al, t, b) <= SIZE_MAX / 2
  }

  // ---- live regions of a buffer

  predicate IsLive(vs: seq<View>, a: Addr, n: nat) {
    a.chunk < |vs| && a.offset in vs[a.chunk].live && vs[a.chunk].live[a.offset] == n
  }

  /** Live regions do not overlap and lie below the high-water marks. */
  ghost predicate SoundViews(vs: seq<View>) {
    && (forall a, n, b, m :: IsLive(vs, a, n) && IsLive(vs, b, m) && a != b && a.chunk == b.chunk ==>
          a.offset + n <= b.offset || b.offset + m <= a.offset)
    && (forall a, n :: IsLive(vs, a, n) ==> a.offset + n <= vs[a.chunk].maxSize)
  }

  /** High-water marks only rise. */
  ghost predicate Higher(vs: seq<View>, vs': seq<View>) {
    |vs| <= |vs'| && forall c :: 0 <= c < |vs| ==> vs[c].maxSize <= vs'[c].maxSize
  }

  /** A new live region of `n` bytes at `a`. */
  ghost predicate Grown(vs: seq<View>, vs': seq<View>, a: Addr, n: nat) {
    && (forall m :: !IsLive(vs, a, m))
    && (forall b, m :: IsLive(vs', b, m) <==> (b == a && m == n) || IsLive(vs, b, m))
    && Higher(vs, vs')
  }

  /** The live region at `a` keeps its first `k` bytes; with `k == 0` it is gone. */
  ghost predicate Trimmed(vs: seq<View>, vs': seq<View>, a: Addr, k: nat) {
    && (forall b, m :: IsLive(vs', b, m) <==> if b == a then k > 0 && m == k else IsLive(vs, b, m))
    && Higher(vs, vs')
  }

  lemma ServedGrows(vs: seq<View>, vs': seq<View>, a: Addr, n: nat, maxChunkSize: nat)
    requires Served(vs, vs', a, n, maxChunkSize)
    requires a.chunk < |vs| ==> a.offset !in vs[a.chunk].live
    ensures Grown(vs, vs', a, n)
  {
    if NoInterior(vs, n) && NoTail(vs, n) {
      forall b, m ensures IsLive(vs', b, m) <==> (b == a && m == n) || IsLive(vs, b, m) {}
    } else {
      var i: nat :| Chosen(vs, a.chunk, i, n) && a.offset == vs[a.chunk].blocks[i].offset
                    && vs' == vs[a.chunk := ServedView(vs[a.chunk], i, n)];
      assert vs'[a.chunk].live == vs[a.chunk].live[a.offset := n];
      forall b, m ensures IsLive(vs', b, m) <==> (b == a && m == n) || IsLive(vs, b, m) {}
    }
  }

  /** `n` bytes are handed out at `a`, as the allocator of a buffer does it. */
  ghost predicate HandedOut(vs: seq<View>, vs': seq<View>, a: Addr, n: nat, buffer: BufferKind) {
    && Served(vs, vs', a, n, buffer.maxChunkSize)
    && (a.chunk < |vs| ==> a.offset !in vs[a.chunk].live)
    && Multiple(a.offset, buffer.alignment)
  }

  /** Of the `whole` bytes at `a` the first `keep` stay, the others are returned to the free list. */
  ghost predicate GivenBack(vs: seq<View>, vs': seq<View>, a: Addr, keep: nat, whole: nat) {
    if keep == whole then vs' == vs
    else keep < whole && ReleasedIn(vs, vs', Addr(a.chunk, a.offset + keep), whole - keep, a.offset)
  }

  lemma GivenBackTrims(vs: seq<View>, vs': seq<View>, a: Addr, keep: nat, whole: nat)
    requires GivenBack(vs, vs', a, keep, whole) && IsLive(vs, a, whole) && whole > 0
    ensures Trimmed(vs, vs', a, keep)
  {
    if keep < whole { ReleasedTrims(vs, vs', Addr(a.chunk, a.offset + keep), whole - keep, a.offset); }
  }

  lemma GivenBackIsSteady(vs: seq<View>, vs': seq<View>, a: Addr, keep: nat, whole: nat)
    requires GivenBack(vs, vs', a, keep, whole)
    ensures Higher(vs, vs')
  {
  }

  lemma ReleasedTrims(vs: seq<View>, vs': seq<View>, addr: Addr, n: nat, o: nat)
    requires ReleasedIn(vs, vs', addr, n, o)
    ensures Trimmed(vs, vs', Addr(addr.chunk, o), addr.offset - o)
  {
    var a := Addr(addr.chunk, o);
    forall b, m
      ensures IsLive(vs', b, m) <==> if b == a then addr.offset > o && m == addr.offset - o else IsLive(vs, b, m)
    {
    }
  }

  // ---- the steps

  /** `p` is a source of `t` whose memory `t` may take over. */
  predicate Reusable(g: Graph, hn: seq<HashNode>, t: nat, p: nat)
    requires t < |g.tensors| == |hn| && p < |hn|
  {
    && hn[p].held
    && !g.tensors[p].output && !g.tensors[Root(g, p)].output
    && g.tensors[t].layout == g.tensors[p].layout
    && hn[p].nChildren == 1 && hn[p].nViews == 0
  }

  /** The first source that can be taken over. */
  function FirstReusable(g: Graph, hn: seq<HashNode>, t: nat, src: seq<nat>): (r: Option<nat>)
    requires t < |g.tensors| == |hn| && forall j :: 0 <= j < |src| ==> src[j] < |hn|
    ensures r.Some? ==> r.value in src && Reusable(g, hn, t, r.value)
  {
    if src == [] then None
    else if Reusable(g, hn, t, src[0]) then Some(src[0])
    else FirstReusable(g, hn, t, src[1..])
  }

  function InplaceParent(g: Graph, hn: seq<HashNode>, t: nat): (r: Option<nat>)
    requires t < |g.tensors| == |hn|
    ensures r.Some? ==> g.tensors[t].canInplace && r.value in g.tensors[t].src && Reusable(g, hn, t, r.value)
  {
    if g.tensors[t].canInplace then FirstReusable(g, hn, t, g.tensors[t].src) else None
  }

  predicate Skipped(g: Graph, hn: seq<HashNode>, t: nat)
    requires t < |g.tensors| == |hn|
  {
    hn[t].held || g.tensors[t].external || IsView(g, t)
  }

  /** Placing tensor `t`, preferably in buffer `b`. */
  ghost predicate AllocateRel(g: Graph, al: Buffers, s: PState, s': PState, t: nat, b: nat)
    requires t < |g.tensors| == |s.hn|
  {
    if Skipped(g, s.hn, t) then s' == s
    else match InplaceParent(g, s.hn, t)
      case Some(p) => ReuseRel(g, al, s, s', t, p)
      case None => FreshRel(g, al, s, s', t, b)
  }

  ghost predicate ReuseRel(g: Graph, al: Buffers, s: PState, s': PState, t: nat, p: nat)
    requires t < |g.tensors| == |s.hn| && p < |s.hn|
  {
    var pb := s.hn[p].bufferId;
    && t != p && pb < |s.views| == |al| && |s'.views| == |s.views|
    && s'.hn == s.hn[t := s.hn[t].(bufferId := pb, addr := s.hn[p].addr, held := true)]
                    [p := s.hn[p].(held := false)]
    && (forall c :: 0 <= c < |al| && c != pb ==> s'.views[c] == s.views[c])
    && GivenBack(s.views[pb], s'.views[pb], s.hn[p].addr, Reserved(g, al, t, pb), Reserved(g, al, p, pb))
  }

  ghost predicate FreshRel(g: Graph, al: Buffers, s: PState, s': PState, t: nat, b: nat)
    requires t < |g.tensors| == |s.hn|
  {
    && b < |s.views| == |al| && |s'.views| == |s.views| && |s'.hn| == |s.hn|
    && s'.hn == s.hn[t := s.hn[t].(bufferId := b, addr := s'.hn[t].addr, held := true)]
    && (forall c :: 0 <= c < |al| && c != b ==> s'.views[c] == s.views[c])
    && HandedOut(s.views[b], s'.views[b], s'.hn[t].addr, Reserved(g, al, t, b), al[b])
  }

  /** Releasing tensor `t`; outputs stay. */
  ghost predicate FreeRel(g: Graph, al: Buffers, s: PState, s': PState, t: nat)
    requires t < |g.tensors| == |s.hn|
  {
    if g.tensors[t].output then s' == s
    else
      var b := s.hn[t].bufferId;
      && b < |s.views| == |al| && |s'.views| == |s.views|
      && s'.hn == s.hn[t := s.hn[t].(held := false)]
      && (forall c :: 0 <= c < |al| && c != b ==> s'.views[c] == s.views[c])
      && GivenBack(s.views[b], s'.views[b], s.hn[t].addr, 0, Reserved(g, al, t, b))
  }

  // ---- when a step aborts

  /** All block slots are in use and the region touches no free block. */
  ghost predicate FreeListFull(vs: seq<View>, addr: Addr, n: nat) {
    addr.chunk < |vs| && |vs[addr.chunk].blocks| == MAX_FREE_BLOCKS && Isolated(vs[addr.chunk].blocks, addr.offset, n)
  }

  /** Taking over `p` for `t` aborts: `t` is larger, or the space left over cannot be recorded. */
  ghost predicate ReuseAborts(g: Graph, al: Buffers, s: PState, t: nat, p: nat)
    requires t < |g.tensors| == |s.hn| && p < |s.hn| && s.hn[p].bufferId < |s.views| == |al|
  {
    var pb, a := s.hn[p].bufferId, s.hn[p].addr;
    var n, m := Reserved(g, al, t, pb), Reserved(g, al, p, pb);
    Size(g, t, pb) > Size(g, p, pb) || (n < m && FreeListFull(s.views[pb], Addr(a.chunk, a.offset + n), m - n))
  }

  ghost predicate AllocateAborts(g: Graph, al: Buffers, s: PState, t: nat, b: nat)
    requires t < |g.tensors| == |s.hn| && b < |al| == |s.views|
    requires forall p :: 0 <= p < |s.hn| && s.hn[p].held ==> s.hn[p].bufferId < |al|
  {
    !Skipped(g, s.hn, t) &&
    match InplaceParent(g, s.hn, t)
    case Some(p) => ReuseAborts(g, al, s, t, p)
    case None => OutOfMemory(s.views[b], Reserved(g, al, t, b))
  }

  ghost predicate FreeAborts(g: Graph, al: Buffers, s: PState, t: nat)
    requires t < |g.tensors| == |s.hn| && s.hn[t].bufferId < |s.views| == |al|
  {
    !g.tensors[t].output && FreeListFull(s.views[s.hn[t].bufferId], s.hn[t].addr, Reserved(g, al, t, s.hn[t].bufferId))
  }

  // ---- the memory invariant

  /** Every allocated tensor owns a live region of its size, and no two own the same. */
  ghost predicate Mem(g: Graph, al: Buffers, s: PState) {
    && |s.hn| == |g.tensors| && |s.views| == |al|
    && (forall b :: 0 <= b < |al| ==> SoundViews(s.views[b]))
    && (forall t :: 0 <= t < |s.hn| && s.hn[t].held ==> Holds(g, al, s, t))
    && (forall t, u :: 0 <= t < u < |s.hn| && s.hn[t].held && s.hn[u].held ==> PlaceOf(s.hn[t]) != PlaceOf(s.hn[u]))
  }

  ghost predicate Holds(g: Graph, al: Buffers, s: PState, t: nat)
    requires t < |s.hn| == |g.tensors| && |s.views| == |al|
  {
    Owned(g, t) && s.hn[t].bufferId < |al|
    && IsLive(s.views[s.hn[t].bufferId], s.hn[t].addr, Reserved(g, al, t, s.hn[t].bufferId))
  }

  lemma AllocatedApart(g: Graph, al: Buffers, s: PState, t: nat, u: nat)
    requires Mem(g, al, s) && t < |s.hn| && u < |s.hn| && t != u && s.hn[t].held && s.hn[u].held
    ensures TensorsApart(g, PlanOf(s.hn), t, u)
  {
    var h, k := s.hn[t], s.hn[u];
    assert Holds(g, al, s, t) && Holds(g, al, s, u);
    assert PlaceOf(h) != PlaceOf(k);
    AlignUpIsLeast(Size(g, t, h.bufferId), al[h.bufferId].alignment);
    AlignUpIsLeast(Size(g, u, k.bufferId), al[k.bufferId].alignment);
    if h.bufferId == k.bufferId && h.addr.chunk == k.addr.chunk {
      assert SoundViews(s.views[h.bufferId]);
    }
  }

  lemma ReuseTrims(g: Graph, al: Buffers, s: PState, s': PState, t: nat, p: nat)
    requires t < |g.tensors| == |s.hn| && p < |s.hn| && ReuseRel(g, al, s, s', t, p) && Holds(g, al, s, p)
    requires SizesOk(g, al)
    ensures var pb := s.hn[p].bufferId;
            Trimmed(s.views[pb], s'.views[pb], s.hn[p].addr, Reserved(g, al, t, pb)) && Reserved(g, al, t, pb) > 0
  {
    var pb := s.hn[p].bufferId;
    AlignUpIsLeast(Size(g, t, pb), al[pb].alignment);
    AlignUpIsLeast(Size(g, p, pb), al[pb].alignment);
    GivenBackTrims(s.views[pb], s'.views[pb], s.hn[p].addr, Reserved(g, al, t, pb), Reserved(g, al, p, pb));
  }

  lemma FreshGrows(g: Graph, al: Buffers, s: PState, s': PState, t: nat, b: nat)
    requires t < |g.tensors| == |s.hn| && FreshRel(g, al, s, s', t, b)
    ensures Grown(s.views[b], s'.views[b], s'.hn[t].addr, Reserved(g, al, t, b))
  {
    var n := Reserved(g, al, t, b);
    ServedGrows(s.views[b], s'.views[b], s'.hn[t].addr, n, al[b].maxChunkSize);
  }

  lemma FreeTrims(g: Graph, al: Buffers, s: PState, s': PState, t: nat)
    requires t < |g.tensors| == |s.hn| && !g.tensors[t].output && FreeRel(g, al, s, s', t) && Holds(g, al, s, t)
    requires SizesOk(g, al)
    ensures var b := s.hn[t].bufferId; Trimmed(s.views[b], s'.views[b], s.hn[t].addr, 0)
  {
    var b := s.hn[t].bufferId;
    AlignUpIsLeast(Size(g, t, b), al[b].alignment);
    GivenBackTrims(s.views[b], s'.views[b], s.hn[t].addr, 0, Reserved(g, al, t, b));
  }

  lemma AllocateRaises(g: Graph, al: Buffers, s: PState, s': PState, t: nat, b: nat)
    requires t < |g.tensors| == |s.hn| && AllocateRel(g, al, s, s', t, b)
    ensures |s'.views| == |s.views| && forall c :: 0 <= c < |s.views| ==> Higher(s.views[c], s'.views[c])
  {
    if !Skipped(g, s.hn, t) {
      match InplaceParent(g, s.hn, t)
      case Some(p) =>
        var pb := s.hn[p].bufferId;
        GivenBackIsSteady(s.views[pb], s'.views[pb], s.hn[p].addr, Reserved(g, al, t, pb), Reserved(g, al, p, pb));
      case None => FreshGrows(g, al, s, s', t, b);
    }
  }

  lemma AllocateKeepsMem(g: Graph, al: Buffers, s: PState, s': PState, t: nat, b: nat)
    requires t < |g.tensors| && Mem(g, al, s) && AllocateRel(g, al, s, s', t, b) && b < |al| && SizesOk(g, al)
    requires forall c :: 0 <= c < |s'.views| ==> SoundViews(s'.views[c])
    ensures Mem(g, al, s')
  {
    if !Skipped(g, s.hn, t) {
      match InplaceParent(g, s.hn, t)
      case Some(p) =>
        assert Holds(g, al, s, p);
        ReuseTrims(g, al, s, s', t, p);
        forall u | 0 <= u < |s'.hn| && s'.hn[u].held ensures Holds(g, al, s', u) {
          if u != t { assert Holds(g, al, s, u) && PlaceOf(s.hn[u]) != PlaceOf(s.hn[p]); }
        }
      case None =>
        FreshGrows(g, al, s, s', t, b);
        forall u | 0 <= u < |s'.hn| && s'.hn[u].held
          ensures Holds(g, al, s', u)
          ensures u != t ==> PlaceOf(s'.hn[u]) != PlaceOf(s'.hn[t])
        {
          if u != t { assert Holds(g, al, s, u); }
        }
    }
  }

  lemma FreeKeepsMem(g: Graph, al: Buffers, s: PState, s': PState, t: nat)
    requires t < |g.tensors| && Mem(g, al, s) && s.hn[t].held && FreeRel(g, al, s, s', t) && SizesOk(g, al)
    requires forall c :: 0 <= c < |s'.views| ==> SoundViews(s'.views[c])
    ensures Mem(g, al, s')
  {
    if !g.tensors[t].output {
      FreeTrims(g, al, s, s', t);
      forall u | 0 <= u < |s'.hn| && s'.hn[u].held ensures Holds(g, al, s', u) {
        assert Holds(g, al, s, u) && PlaceOf(s.hn[u]) != PlaceOf(s.hn[t]);
      }
    }
  }

  // ---- the bookkeeping invariant

  /** The counters say what is left to do from slot `j` of node `i`. */
  ghost predicate Book(g: Graph, hn: seq<HashNode>, i: nat, j: nat) {
    && |hn| == |g.tensors|
    && (forall t :: 0 <= t < |hn| ==> hn[t].nChildren == Left(g, t, i, j))
    && (forall t :: 0 <= t < |hn| && Owned(g, t) ==> hn[t].nViews == Open(g, t, i, j))
    && (forall t :: 0 <= t < |hn| && IsView(g, t) ==> hn[t].nViews == 0)
  }

  /** Memory is held exactly as long as it is needed: by the placed tensors that are outputs or not
      gone, except the one whose memory the current node has taken over. */
  ghost predicate Held(g: Graph, hn: seq<HashNode>, placed: nat, i: nat, j: nat, reused: Option<nat>) {
    && |hn| == |g.tensors|
    && forall t :: 0 <= t < |hn| ==> (hn[t].held <==> ShouldHold(g, t, placed, i, j) && reused != Some(t))
  }

  ghost predicate ShouldHold(g: Graph, t: nat, placed: nat, i: nat, j: nat) {
    Placed(g, t, placed) && (g.tensors[t].output || !Gone(g, t, i, j))
  }

  /** A tensor taken over by node `i` is not an output and is gone once that node is done. */
  ghost predicate ReusedOk(g: Graph, i: nat, reused: Option<nat>) {
    reused.Some? ==> reused.value < |g.tensors| && !g.tensors[reused.value].output && Gone(g, reused.value, i + 1, 0)
  }

  /** Every placed tensor lies inside its chunk's planned size, at a multiple of the alignment. */
  ghost predicate InBounds(g: Graph, al: Buffers, s: PState, placed: nat) {
    && |s.hn| == |g.tensors| && |s.views| == |al|
    && forall t :: 0 <= t < |s.hn| && Placed(g, t, placed) ==> TensorInBounds(g, al, s, t)
  }

  ghost predicate TensorInBounds(g: Graph, al: Buffers, s: PState, t: nat)
    requires t < |g.tensors| == |s.hn| && |s.views| == |al|
  {
    var h := s.hn[t];
    h.bufferId < |al| && h.addr.chunk < |s.views[h.bufferId]|
    && h.addr.offset + Size(g, t, h.bufferId) <= s.views[h.bufferId][h.addr.chunk].maxSize
    && Multiple(h.addr.offset, al[h.bufferId].alignment)
  }

  /** The first `n` nodes write over nothing that is needed later. */
  ghost predicate HarmlessSoFar(g: Graph, plan: Plan, n: nat) {
    |plan| == |g.tensors| && forall k :: 0 <= k < n && k < |g.nodes| && Writes(g, k) ==> NodeHarmless(g, plan, k)
  }

  lemma HarmlessDependsOnPlaced(g: Graph, plan: Plan, plan': Plan, n: nat)
    requires WellFormed(g) && HarmlessSoFar(g, plan, n) && n <= |g.nodes| && |plan'| == |plan|
    requires forall t :: 0 <= t < |plan| && Placed(g, t, n) ==> plan'[t] == plan[t]
    ensures HarmlessSoFar(g, plan', n)
  {
    forall k | 0 <= k < n && Writes(g, k) ensures NodeHarmless(g, plan', k) {
      var w := Root(g, g.nodes[k]);
      assert NodeHarmless(g, plan, k);
      if Owned(g, w) {
        WriterIsPlaced(g, k);
        PlacedGrows(g, w, k + 1, n);
        forall r: nat | Placed(g, r, k + 1) && NeededAfter(g, r, k) && r != w ensures TensorsApart(g, plan', r, w) {
          PlacedGrows(g, r, k + 1, n);
        }
        forall j | 0 <= j < |Src(g, k)| ensures OperandSafe(g, plan', k, j) {
          assert OperandSafe(g, plan, k, j);
          SourceMatters(g, k, j);
          if Owned(g, Root(g, Src(g, k)[j])) { PlacedGrows(g, Root(g, Src(g, k)[j]), k, n); }
        }
      }
    }
  }

  /** What node `i` has to do with the source whose memory it has taken over. */
  ghost predicate TakenOver(g: Graph, plan: Plan, i: nat, reused: Option<nat>)
    requires i < |g.nodes| && |plan| == |g.tensors|
  {
    reused.Some? ==>
        forall j ::
        0 <= j < |Src(g, i)| && Root(g, Src(g, i)[j]) == reused.value ==> InPlace(g, plan, g.nodes[i], Src(g, i)[j])
  }

  /** The tensor that node `i` writes holds its memory. */
  lemma WriterHolds(g: Graph, hn: seq<HashNode>, i: nat, reused: Option<nat>)
    requires WellFormed(g) && i < |g.nodes| && Writes(g, i) && Owned(g, Root(g, g.nodes[i]))
    requires Held(g, hn, i + 1, i, 0, reused) && ReusedOk(g, i, reused)
    requires reused.Some? ==> reused.value in Src(g, i) && !IsView(g, g.nodes[i])
    ensures hn[Root(g, g.nodes[i])].held
  {
    var w := Root(g, g.nodes[i]);
    WriterIsPlaced(g, i);
    assert NodeWellFormed(g, i);
    if IsView(g, g.nodes[i]) {
      assert Uses(g, i, w);
      UseIsNotGone(g, w, i, i);
    } else {
      NotGoneWhenPlaced(g, w, i);
    }
  }

  /** So does everything it reads, except for what it has taken over. */
  lemma OperandHolds(g: Graph, hn: seq<HashNode>, i: nat, j: nat, reused: Option<nat>)
    requires WellFormed(g) && i < |g.nodes| && j < |Src(g, i)| && Held(g, hn, i + 1, i, 0, reused)
    requires Owned(g, Root(g, Src(g, i)[j]))
    ensures hn[Root(g, Src(g, i)[j])].held || reused == Some(Root(g, Src(g, i)[j]))
  {
    var r := Root(g, Src(g, i)[j]);
    SourceMatters(g, i, j);
    PlacedGrows(g, r, i, i + 1);
    assert Uses(g, i, r);
    UseIsNotGone(g, r, i, i);
  }

  /** Placing node `i` is harmless: what it reads and whatever is needed later still holds its own
      memory, except for a source that the node writes over in place. */
  lemma PlacementHarmless(g: Graph, al: Buffers, s: PState, i: nat, reused: Option<nat>)
    requires WellFormed(g) && i < |g.nodes| && Mem(g, al, s)
    requires Held(g, s.hn, i + 1, i, 0, reused) && ReusedOk(g, i, reused) && TakenOver(g, PlanOf(s.hn), i, reused)
    requires reused.Some? ==> reused.value in Src(g, i) && !IsView(g, g.nodes[i])
    requires Writes(g, i)
    ensures NodeHarmless(g, PlanOf(s.hn), i)
  {
    var w := Root(g, g.nodes[i]);
    if Owned(g, w) {
      WriterHolds(g, s.hn, i, reused);
      forall j | 0 <= j < |Src(g, i)| ensures OperandSafe(g, PlanOf(s.hn), i, j) {
        var r := Root(g, Src(g, i)[j]);
        if Owned(g, r) && r != w {
          OperandHolds(g, s.hn, i, j, reused);
          if s.hn[r].held { AllocatedApart(g, al, s, r, w); }
        }
      }
      forall r: nat | Placed(g, r, i + 1) && NeededAfter(g, r, i) && r != w
        ensures TensorsApart(g, PlanOf(s.hn), r, w)
      {
        NeededIsNotGone(g, r, i + 1);
        GoneStaysGone(g, r, i, 0, i + 1, 0);
        assert s.hn[r].held;
        AllocatedApart(g, al, s, r, w);
      }
    }
  }
}
