/** The graph allocator: walks a graph, assigns every tensor a place in a buffer, and reuses memory
    whose last reader has been passed. */
module Planner {
  import opened Wrappers
  import opened Chunks
  import opened DynTallocrs
  import opened DynTallocrLaws
  import opened Graphs
  import opened Executions
  import opened PlannerSpec
  import opened PlannerWalk
  import opened PlannerRuns
  import opened PlannerSuccess
  import opened PlannerPlaces

  lemma ValidViewsAreSound(t: DynTallocr)
    requires t.Valid()
    ensures SoundViews(t.views)
  {
    forall a, n, b, m | IsLive(t.views, a, n) && IsLive(t.views, b, m) && a != b && a.chunk == b.chunk
      ensures a.offset + n <= b.offset || b.offset + m <= a.offset
    {
      LiveRegionsApart(t, a.chunk, a.offset, b.offset);
    }
    forall a, n | IsLive(t.views, a, n) ensures a.offset + n <= t.views[a.chunk].maxSize {
      LiveBelowMark(t, a.chunk, a.offset);
    }
  }

  lemma ValidViewsFit(t: DynTallocr)
    requires t.Valid()
    ensures ViewsFit(t.views, SIZE_MAX / 2)
  {
    forall c | 0 <= c < |t.views| ensures ViewFits(t.views[c], c, SIZE_MAX / 2) {
      assert ChunkOk(t.chunks[c], t.alignment);
      assert ChunkFits(t.views[c], t.chunks[c].capacity, SIZE_MAX / 2);
    }
  }

  /** Counting has come to node `i`, and either that is the end or the planner has stopped. */
  lemma AllCounted(g: Graph, al: Buffers, nodeBuffers: seq<nat>, start: PState, s: PState, i: nat, ok: bool)
    requires WellFormed(g) && i <= |g.nodes| == |nodeBuffers| && (ok ==> i == |g.nodes|)
    requires ok ==> Prepared(g, al, s, |g.leafs|, i, i, 0)
    requires Does(g, al, start, CountAll(g, nodeBuffers, i), s, ok)
    ensures ok ==> Walk(g, al, s, 0, 0, 0, None)
    ensures Does(g, al, start, CountAll(g, nodeBuffers, |g.nodes|), s, ok)
  {
    CountAllGrows(g, nodeBuffers, i, |g.nodes|);
    DoesAll(g, al, start, CountAll(g, nodeBuffers, i), CountAll(g, nodeBuffers, |g.nodes|), s, ok);
    if ok { PreparedStartsWalk(g, al, s); }
  }

  class Gallocr {
    const tallocs: seq<DynTallocr>
    const hashValues: array<HashNode>
    ghost const al: Buffers
    ghost var views: seq<seq<View>>
    ghost var Repr: set<object>

    ghost predicate Valid()
      reads this, Repr
      ensures Valid() ==> this in Repr
    {
      && this in Repr && hashValues in Repr
      && |al| == |views| == |tallocs|
      && (forall b :: 0 <= b < |tallocs| ==> tallocs[b] in Repr && tallocs[b].Repr <= Repr)
      && (forall b :: 0 <= b < |tallocs| ==> BufferOk(b))
      && (forall b, c :: 0 <= b < c < |tallocs| ==> tallocs[b].Repr !! tallocs[c].Repr)
    }

    ghost predicate BufferOk(b: nat)
      requires b < |tallocs| == |views| == |al|
      reads this, tallocs[b], tallocs[b].Repr
    {
      var t := tallocs[b];
      && this !in t.Repr && hashValues !in t.Repr
      && t.Valid() && al[b] == BufferKind(t.alignment, t.maxChunkSize) && views[b] == t.views
    }

    ghost function State(): PState
      reads this, hashValues
    {
      PState(hashValues[..], views)
    }

    /** An allocator for each buffer. */
    static method NewTallocs(alignments: seq<nat>, maxSizes: seq<nat>)
      returns (ts: seq<DynTallocr>, ghost reprs: set<object>)
      requires |alignments| == |maxSizes| && forall b :: 0 <= b < |alignments| ==> alignments[b] > 0
      ensures |ts| == |alignments| && fresh(reprs)
      ensures forall b :: 0 <= b < |ts| ==> ts[b].Valid() && ts[b].Repr <= reprs && ts[b].views == []
      ensures forall b ::
          0 <= b < |ts| ==> ts[b].alignment == alignments[b] && ts[b].maxChunkSize == ChunkLimit(maxSizes[b])
      ensures forall b, c :: 0 <= b < c < |ts| ==> ts[b].Repr !! ts[c].Repr
    {
      ts, reprs := [], {};
      var i := 0;
      while i < |alignments|
        invariant i <= |alignments| && |ts| == i
        invariant fresh(reprs)
        invariant forall b :: 0 <= b < i ==> ts[b].Valid() && ts[b].Repr <= reprs && ts[b].views == []
        invariant forall b ::
            0 <= b < i ==> ts[b].alignment == alignments[b] && ts[b].maxChunkSize == ChunkLimit(maxSizes[b])
        invariant forall b, c :: 0 <= b < c < i ==> ts[b].Repr !! ts[c].Repr
      {
        var t := new DynTallocr(alignments[i], maxSizes[i]);
        ts := ts + [t];
        reprs := reprs + t.Repr;
        i := i + 1;
      }
    }

    /** A planner for `nTensors` tensors and buffers with the given alignments and size limits. */
    constructor (nTensors: nat, alignments: seq<nat>, maxSizes: seq<nat>)
      requires |alignments| == |maxSizes| && forall b :: 0 <= b < |alignments| ==> alignments[b] > 0
      ensures Valid() && fresh(Repr) && hashValues.Length == nTensors && |al| == |alignments|
      ensures forall b :: 0 <= b < |al| ==> al[b] == BufferKind(alignments[b], ChunkLimit(maxSizes[b]))
      ensures forall b :: 0 <= b < |al| ==> views[b] == []
    {
      var ts;
      ghost var reprs;
      ts, reprs := NewTallocs(alignments, maxSizes);
      tallocs := ts;
      al := seq(|ts|, b requires 0 <= b < |ts| => BufferKind(ts[b].alignment, ts[b].maxChunkSize));
      views := seq(|ts|, _ => []);
      hashValues := new HashNode[nTensors](_ => BLANK);
      Repr := reprs;
      new;
      Repr := Repr + {this, hashValues};
    }

    /** Plans `size` bytes in buffer `b`. */
    method TallocAlloc(b: nat, size: nat) returns (r: Option<Addr>)
      requires Valid() && b < |tallocs| && size > 0 && AlignUp(size, al[b].alignment) <= SIZE_MAX / 2
      modifies this`views, this`Repr, tallocs[b].Repr
      ensures Valid() && fresh(Repr - old(Repr)) && hashValues[..] == old(hashValues[..])
      ensures r.None? <==> OutOfMemory(old(views[b]), AlignUp(size, al[b].alignment))
      ensures r.None? ==> views == old(views)
      ensures r.Some? ==> views == old(views)[b := views[b]]
      ensures r.Some? ==> HandedOut(old(views[b]), views[b], r.value, AlignUp(size, al[b].alignment), al[b])
    {
      assert BufferOk(b);
      var t := tallocs[b];
      r := t.Alloc(size);
      views := views[b := tallocs[b].views];
      Repr := Repr + tallocs[b].Repr;
      assert BufferOk(b);
      forall c | 0 <= c < |tallocs| && c != b ensures BufferOk(c) && tallocs[b].Repr !! tallocs[c].Repr {
        assert old(BufferOk(c)) && old(tallocs[b].Repr !! tallocs[c].Repr);
      }
    }

    /** Gives back everything but the first `keep` bytes of the live region at `a` in buffer `b`. */
    method TallocTrim(b: nat, a: Addr, keep: nat, size: nat) returns (ok: bool)
      requires Valid() && b < |tallocs| && size > 0
      requires IsLive(views[b], a, keep + AlignUp(size, al[b].alignment))
      modifies this`views, tallocs[b].Repr
      ensures Valid() && Repr == old(Repr) && hashValues[..] == old(hashValues[..])
      ensures ok <==> !FreeListFull(old(views[b]), Addr(a.chunk, a.offset + keep), AlignUp(size, al[b].alignment))
      ensures ok ==> views == old(views)[b := views[b]]
      ensures ok ==>
          ReleasedIn(old(views[b]), views[b], Addr(a.chunk, a.offset + keep), AlignUp(size, al[b].alignment), a.offset)
    {
      assert BufferOk(b);
      var t := tallocs[b];
      ghost var before := t.views;
      var top := Addr(a.chunk, a.offset + keep);
      assert before[a.chunk].live[a.offset] == keep + AlignUp(size, t.alignment);
      ok := t.FreeBytes(top, size, a.offset);
      views := views[b := t.views];
      assert BufferOk(b) && t.Repr == old(t.Repr);
      forall c | 0 <= c < |tallocs| && c != b ensures tallocs[c].Repr == old(tallocs[c].Repr) {
        assert old(BufferOk(c)) && old(tallocs[b].Repr !! tallocs[c].Repr);
      }
      forall c | 0 <= c < |tallocs| && c != b ensures BufferOk(c) {
        assert old(BufferOk(c)) && old(tallocs[b].Repr !! tallocs[c].Repr);
      }
    }

    /** Returns the space at the end of the parent's region that the smaller node does not need. */
    method FreeExtraSpace(g: Graph, node: nat, parent: nat) returns (ok: bool)
      requires Valid() && node < |g.tensors| == hashValues.Length && parent < |g.tensors|
      requires hashValues[node].bufferId == hashValues[parent].bufferId < |tallocs|
      requires SizesOk(g, al)
      requires IsLive(views[hashValues[parent].bufferId], hashValues[parent].addr,
          Reserved(g, al, parent, hashValues[parent].bufferId))
      modifies this`views, tallocs[hashValues[parent].bufferId].Repr
      ensures Valid() && Repr == old(Repr) && hashValues[..] == old(hashValues[..])
      ensures ok <==> !ReuseAborts(g, al, old(State()), node, parent)
      ensures ok ==> views == old(views)[hashValues[parent].bufferId := views[hashValues[parent].bufferId]]
      ensures ok ==>
          GivenBack(old(views[hashValues[parent].bufferId]), views[hashValues[parent].bufferId],
              hashValues[parent].addr, Reserved(g, al, node, hashValues[parent].bufferId),
              Reserved(g, al, parent, hashValues[parent].bufferId))
    {
      var hn, pHn := hashValues[node], hashValues[parent];
      var parentSize := Size(g, parent, pHn.bufferId);
      var nodeSize := Size(g, node, hn.bufferId);
      if parentSize < nodeSize { return false; }
      assert BufferOk(pHn.bufferId);
      var alignment := tallocs[pHn.bufferId].alignment;
      ExtraIsAligned(nodeSize, parentSize, alignment);
      parentSize := AlignUp(parentSize, alignment);
      nodeSize := AlignUp(nodeSize, alignment);
      ok := true;
      if parentSize > nodeSize {
        var extraSize := parentSize - nodeSize;
        ok := TallocTrim(pHn.bufferId, pHn.addr, nodeSize, extraSize);
      }
    }

    /** Releases a tensor's memory, unless it is an output. */
    method FreeNode(g: Graph, node: nat) returns (ok: bool)
      requires Valid() && node < |g.tensors| == hashValues.Length
      requires hashValues[node].held && Mem(g, al, State()) && SizesOk(g, al)
      modifies this`views, hashValues, tallocs[hashValues[node].bufferId].Repr
      ensures Valid() && Repr == old(Repr)
      ensures ok <==> !FreeAborts(g, al, old(State()), node)
      ensures ok ==> FreeRel(g, al, old(State()), State(), node) && Mem(g, al, State())
    {
      if g.tensors[node].output { return true; }
      ghost var before := State();
      var h := hashValues[node];
      assert Holds(g, al, before, node);
      ok := TallocTrim(h.bufferId, h.addr, 0, Size(g, node, h.bufferId));
      label Trimmed:
      hashValues[node] := h.(held := false);
      forall b | 0 <= b < |tallocs| ensures BufferOk(b) { assert old@Trimmed(BufferOk(b)); }
      if ok {
        assert State().hn == before.hn[node := h.(held := false)];
        AlignUpIsLeast(Size(g, node, h.bufferId), al[h.bufferId].alignment);
        ViewsStaySound();
        FreeKeepsMem(g, al, before, State(), node);
      }
    }

    /** Records that `t` lives where its source `p` did, and returns the space `t` does not need. */
    method TakeOver(g: Graph, t: nat, p: nat) returns (ok: bool)
      requires Valid() && t < |g.tensors| == hashValues.Length && p < |g.tensors| && t != p
      requires SizesOk(g, al) && hashValues[p].held && Holds(g, al, State(), p)
      modifies this`views, hashValues, tallocs[hashValues[p].bufferId].Repr
      ensures Valid() && Repr == old(Repr)
      ensures ok <==> !ReuseAborts(g, al, old(State()), t, p)
      ensures ok ==> ReuseRel(g, al, old(State()), State(), t, p)
    {
      ghost var before := State();
      WriteTakeOver(t, p);
      assert ReuseAborts(g, al, State(), t, p) == ReuseAborts(g, al, before, t, p);
      ok := FreeExtraSpace(g, t, p);
    }

    method WriteTakeOver(t: nat, p: nat)
      requires Valid() && t < hashValues.Length && p < hashValues.Length && t != p
      modifies hashValues
      ensures Valid()
      ensures var pHn := old(hashValues[p]);
              hashValues[..] == old(hashValues[..])
                [t := old(hashValues[t]).(bufferId := pHn.bufferId, addr := pHn.addr, held := true)]
                [p := pHn.(held := false)]
    {
      ghost var before := hashValues[..];
      var h, pHn := hashValues[t], hashValues[p];
      hashValues[t] := h.(bufferId := pHn.bufferId, addr := pHn.addr, held := true);
      hashValues[p] := pHn.(held := false);
      forall b | 0 <= b < |tallocs| ensures BufferOk(b) { assert old(BufferOk(b)); }
      assert hashValues[..]
          == before[t := h.(bufferId := pHn.bufferId, addr := pHn.addr, held := true)][p := pHn.(held := false)];
    }

    /** Plans fresh memory for `t`. */
    method PlaceFresh(g: Graph, t: nat, bufferId: nat) returns (ok: bool)
      requires Valid() && t < |g.tensors| == hashValues.Length && bufferId < |tallocs|
      requires SizesOk(g, al)
      modifies this`views, this`Repr, hashValues, Repr
      ensures Valid() && fresh(Repr - old(Repr))
      ensures ok <==> !OutOfMemory(old(views[bufferId]), Reserved(g, al, t, bufferId))
      ensures ok ==>
          State().hn == old(State()).hn[t := old(hashValues[t]).(bufferId := bufferId, addr := hashValues[t].addr)]
      ensures ok ==> views == old(views)[bufferId := views[bufferId]]
      ensures ok ==>
          HandedOut(old(views[bufferId]), views[bufferId], hashValues[t].addr, Reserved(g, al, t, bufferId),
              al[bufferId])
    {
      ghost var before := hashValues[..];
      var r := TallocAlloc(bufferId, Size(g, t, bufferId));
      if r.None? { return false; }
      label Planned:
      hashValues[t] := hashValues[t].(bufferId := bufferId, addr := r.value);
      forall b | 0 <= b < |tallocs| ensures BufferOk(b) { assert old@Planned(BufferOk(b)); }
      ok := true;
      assert before[t] == old(hashValues[t]);
      assert hashValues[..] == before[t := before[t].(bufferId := bufferId, addr := r.value)];
    }

    /** Gives `t` a place unless it has one: the memory of its first reusable source, or fresh memory
        in `bufferId`. The branch that reuses a source which is itself a view is dead, because views
        are never marked as held. */
    method AllocateNode(g: Graph, t: nat, bufferId: nat) returns (ok: bool)
      requires Valid() && t < |g.tensors| == hashValues.Length && bufferId < |tallocs|
      requires Mem(g, al, State()) && SizesOk(g, al) && t !in g.tensors[t].src
      modifies this`views, this`Repr, hashValues, Repr
      ensures Valid() && fresh(Repr - old(Repr))
      ensures ok <==> !AllocateAborts(g, al, old(State()), t, bufferId)
      ensures ok ==> AllocateRel(g, al, old(State()), State(), t, bufferId)
      ensures old(Skipped(g, hashValues[..], t)) ==> Repr == old(Repr)
    {
      ghost var before := State();
      var h := hashValues[t];
      if h.held || g.tensors[t].external || IsView(g, t) { return true; }
      var reused := FindReusable(g, t);
      assert reused == InplaceParent(g, before.hn, t);
      if reused.Some? {
        assert Holds(g, al, before, reused.value);
        ok := TakeOver(g, t, reused.value);
      } else {
        ok := PlaceFresh(g, t, bufferId);
        label Placed:
        hashValues[t] := hashValues[t].(held := true);
        forall b | 0 <= b < |tallocs| ensures BufferOk(b) { assert old@Placed(BufferOk(b)); }
        if ok {
          assert hashValues[..]
              == before.hn[t := before.hn[t].(bufferId := bufferId, addr := hashValues[t].addr, held := true)];
        }
      }
    }

    /** The search for a source whose memory can be taken over. */
    method FindReusable(g: Graph, t: nat) returns (r: Option<nat>)
      requires t < |g.tensors| == hashValues.Length && Mem(g, al, State())
      ensures r == InplaceParent(g, hashValues[..], t)
      ensures r.Some? ==> Owned(g, r.value)
    {
      if !g.tensors[t].canInplace { return None; }
      var src := g.tensors[t].src;
      var i := 0;
      while i < |src|
        invariant i <= |src|
        invariant FirstReusable(g, hashValues[..], t, src) == FirstReusable(g, hashValues[..], t, src[i..])
      {
        var parent, root := src[i], Root(g, src[i]);
        assert src[i..][1..] == src[i + 1..];
        if hashValues[parent].held
          && !(g.tensors[parent].output || g.tensors[root].output)
          && g.tensors[t].layout == g.tensors[parent].layout
          && hashValues[parent].nChildren == 1 && hashValues[parent].nViews == 0
        {
          assert Holds(g, al, State(), parent);
          if IsView(g, parent) { assert false; }
          return Some(parent);
        }
        i := i + 1;
      }
      r := None;
    }

    /** Crosses off one use of the source in slot `j` of node `i`, and releases what nobody needs
        any more: the source, or the tensor it is a view of. */
    method UpdateParent(g: Graph, i: nat, j: nat, ghost reused: Option<nat>) returns (ok: bool)
      requires Valid() && WellFormed(g) && |g.tensors| == hashValues.Length && SizesOk(g, al)
      requires i < |g.nodes| && j < |Src(g, i)| && Walk(g, al, State(), i + 1, i, j, reused)
      modifies this`views, hashValues, Repr
      ensures Valid() && Repr == old(Repr)
      ensures ok <==> !SlotAborts(g, al, old(State()), Src(g, i)[j])
      ensures ok ==> Walk(g, al, State(), i + 1, i, j + 1, reused)
      ensures Does(g, al, old(State()), [Pass(Src(g, i)[j])], State(), ok)
    {
      ghost var before := State();
      ok := CrossOffAndFree(g, Src(g, i)[j]);
      if ok {
        SlotStep(g, al, before, State(), i, j, reused);
        OneStep(g, al, before, State(), Pass(Src(g, i)[j]));
      } else {
        OneStop(g, al, before, Pass(Src(g, i)[j]));
      }
    }

    method CrossOffAndFree(g: Graph, parent: nat) returns (ok: bool)
      requires Valid() && parent < |g.tensors| == hashValues.Length && SizesOk(g, al)
      requires Mem(g, al, State()) && (IsView(g, parent) ==> Root(g, parent) != parent)
      modifies this`views, hashValues, Repr
      ensures Valid() && Repr == old(Repr)
      ensures ok <==> !SlotAborts(g, al, old(State()), parent)
      ensures ok ==> SlotRel(g, al, old(State()), State(), parent) && Mem(g, al, State())
    {
      ghost var before := State();
      CrossOffSlot(g, parent);
      ghost var mid := State();
      CrossingKeepsMem(g, al, before, mid);
      var root := Root(g, parent);
      var pHn := hashValues[parent];
      ok := true;
      if pHn.nChildren == 0 && pHn.nViews == 0
        && hashValues[root].held && hashValues[root].nViews == 0 && hashValues[root].nChildren == 0
      {
        assert ToFree(g, mid.hn, parent) == Some(root) && Holds(g, al, mid, root);
        ok := FreeNode(g, root);
      }
    }

    method CrossOffSlot(g: Graph, p: nat)
      requires Valid() && p < |g.tensors| == hashValues.Length
      requires IsView(g, p) ==> Root(g, p) != p
      modifies hashValues
      ensures Valid()
      ensures hashValues[..] == CrossOff(g, old(hashValues[..]), p)
    {
      ghost var before := hashValues[..];
      hashValues[p] := hashValues[p].(nChildren := hashValues[p].nChildren - 1);
      assert hashValues[..] == before[p := before[p].(nChildren := before[p].nChildren - 1)];
      if hashValues[p].nChildren == 0 && hashValues[p].nViews == 0 {
        if IsView(g, p) {
          var r := Root(g, p);
          ghost var mid := hashValues[..];
          hashValues[r] := hashValues[r].(nViews := hashValues[r].nViews - 1);
          assert hashValues[..] == mid[r := mid[r].(nViews := mid[r].nViews - 1)];
        }
      }
      forall b | 0 <= b < |tallocs| ensures BufferOk(b) { assert old(BufferOk(b)); }
    }

    /** Offers a place to every source of node `i`; all of them have one already. */
    method PlaceParents(g: Graph, i: nat, bufferId: nat)
      requires Valid() && WellFormed(g) && |g.tensors| == hashValues.Length && SizesOk(g, al)
      requires i < |g.nodes| && bufferId < |tallocs| && Walk(g, al, State(), i, i, 0, None)
      modifies this`views, this`Repr, hashValues, Repr
      ensures Valid() && State() == old(State()) && Repr == old(Repr)
      ensures Runs(g, al, State(), ParentSteps(g, i, bufferId, |Src(g, i)|), State())
    {
      var src := Src(g, i);
      ghost var before := State();
      var j := 0;
      while j < |src|
        invariant j <= |src| && Valid() && State() == before && Repr == old(Repr)
        invariant Runs(g, al, before, ParentSteps(g, i, bufferId, j), before)
      {
        SourceIsSkipped(g, al, before, i, j);
        var done := AllocateNode(g, src[j], bufferId);
        OneStep(g, al, before, before, Give(src[j], bufferId));
        RunsCompose(g, al, before, ParentSteps(g, i, bufferId, j), before, [Give(src[j], bufferId)], before);
        j := j + 1;
      }
    }

    /** Places node `i`. */
    method PlaceNode(g: Graph, i: nat, bufferId: nat) returns (ok: bool)
      requires Valid() && WellFormed(g) && |g.tensors| == hashValues.Length && SizesOk(g, al)
      requires i < |g.nodes| && bufferId < |tallocs| && Walk(g, al, State(), i, i, 0, None)
      modifies this`views, this`Repr, hashValues, Repr
      ensures Valid() && fresh(Repr - old(Repr))
      ensures ok <==> !AllocateAborts(g, al, old(State()), g.nodes[i], bufferId)
      ensures ok ==> Walk(g, al, State(), i + 1, i, 0, ReusedBy(g, old(State()), g.nodes[i]))
      ensures Does(g, al, old(State()), NodeSteps(g, i, bufferId, 0), State(), ok)
    {
      ghost var before := State();
      PlaceParents(g, i, bufferId);
      ok := AllocateNode(g, g.nodes[i], bufferId);
      if ok {
        ViewsStaySound();
        PlaceStep(g, al, before, State(), i, bufferId);
        OneStep(g, al, before, State(), Give(g.nodes[i], bufferId));
      } else {
        OneStop(g, al, before, Give(g.nodes[i], bufferId));
      }
      DoesBoth(g, al, before, ParentSteps(g, i, bufferId, |Src(g, i)|), before, [Give(g.nodes[i], bufferId)],
          State(), ok);
    }

    lemma ViewsStaySound()
      requires Valid()
      ensures AllSound(State())
    {
      forall b | 0 <= b < |views| ensures SoundViews(views[b]) {
        assert BufferOk(b);
        ValidViewsAreSound(tallocs[b]);
      }
    }

    lemma ViewsAreBacked()
      requires Valid()
      ensures Backed(State())
    {
      forall b | 0 <= b < |views| ensures ViewsFit(views[b], SIZE_MAX / 2) {
        assert BufferOk(b);
        ValidViewsFit(tallocs[b]);
      }
      assert AllViewsFit(State(), SIZE_MAX / 2);
    }

    // ---- the walk over a graph

    /** Offers a place to a leaf, or to an input. */
    method Offer(g: Graph, t: nat, bufferId: nat) returns (ok: bool)
      requires Valid() && WellFormed(g) && t < |g.tensors| == hashValues.Length && bufferId < |tallocs|
      requires Mem(g, al, State()) && SizesOk(g, al)
      modifies this`views, this`Repr, hashValues, Repr
      ensures Valid() && fresh(Repr - old(Repr)) && AllSound(State())
      ensures ok ==> OfferInput(g, al, old(State()), State(), t, bufferId)
      ensures ok <==> !(g.tensors[t].input && OfferAborts(g, al, old(State()), t, bufferId))
    {
      ok := true;
      if g.tensors[t].input { ok := AllocateNode(g, t, bufferId); }
      ViewsStaySound();
    }

    method AllocateLeafs(g: Graph, leafBuffers: seq<nat>) returns (ok: bool)
      requires Valid() && WellFormed(g) && |g.tensors| == hashValues.Length && SizesOk(g, al)
      requires |leafBuffers| == |g.leafs| && forall i :: 0 <= i < |leafBuffers| ==> leafBuffers[i] < |tallocs|
      requires Prepared(g, al, State(), 0, 0, 0, 0)
      modifies this`views, this`Repr, hashValues, Repr
      ensures Valid() && fresh(Repr - old(Repr))
      ensures ok ==> Prepared(g, al, State(), |g.leafs|, 0, 0, 0)
      ensures Does(g, al, old(State()), LeafSteps(g, leafBuffers, |g.leafs|), State(), ok)
    {
      ghost var start := State();
      ok := true;
      var i := 0;
      while i < |g.leafs| && ok
        invariant i <= |g.leafs| && Valid() && fresh(Repr - old(Repr))
        invariant ok ==> Prepared(g, al, State(), i, 0, 0, 0)
        invariant Does(g, al, start, LeafSteps(g, leafBuffers, i), State(), ok)
      {
        ghost var before := State();
        ok := AllocateLeaf(g, i, leafBuffers[i]);
        DoesBoth(g, al, start, LeafSteps(g, leafBuffers, i), before, [Give(g.leafs[i], leafBuffers[i])], State(), ok);
        i := i + 1;
      }
      LeafStepsGrow(g, leafBuffers, i, |g.leafs|);
      DoesAll(g, al, start, LeafSteps(g, leafBuffers, i), LeafSteps(g, leafBuffers, |g.leafs|), State(), ok);
    }

    method AllocateLeaf(g: Graph, i: nat, bufferId: nat) returns (ok: bool)
      requires Valid() && WellFormed(g) && |g.tensors| == hashValues.Length && SizesOk(g, al)
      requires i < |g.leafs| && bufferId < |tallocs| && Prepared(g, al, State(), i, 0, 0, 0)
      modifies this`views, this`Repr, hashValues, Repr
      ensures Valid() && fresh(Repr - old(Repr))
      ensures ok ==> Prepared(g, al, State(), i + 1, 0, 0, 0)
      ensures Does(g, al, old(State()), [Give(g.leafs[i], bufferId)], State(), ok)
    {
      ghost var before := State();
      ok := AllocateNode(g, g.leafs[i], bufferId);
      if !ok {
        OneStop(g, al, before, Give(g.leafs[i], bufferId));
      } else {
        OneStep(g, al, before, State(), Give(g.leafs[i], bufferId));
        ViewsStaySound();
        OneMoreLeaf(g, i);
        PreparedAllocate(g, al, before, State(), g.leafs[i], bufferId, i, i + 1, 0, 0, 0);
      }
    }

    /** Counts a node's view and its source slots, placing inputs on the way. */
    method CountNode(g: Graph, i: nat, bufferId: nat) returns (ok: bool)
      requires Valid() && WellFormed(g) && |g.tensors| == hashValues.Length && SizesOk(g, al)
      requires i < |g.nodes| && bufferId < |tallocs|
      requires Prepared(g, al, State(), |g.leafs|, i, i, 0)
      modifies this`views, this`Repr, hashValues, Repr
      ensures Valid() && fresh(Repr - old(Repr))
      ensures ok ==> Prepared(g, al, State(), |g.leafs|, i + 1, i + 1, 0)
      ensures Does(g, al, old(State()), CountSteps(g, i, bufferId, |Src(g, i)|), State(), ok)
    {
      ghost var start := State();
      ok := CountOwn(g, i, bufferId);
      var j := 0;
      while j < |Src(g, i)| && ok
        invariant j <= |Src(g, i)| && Valid() && fresh(Repr - old(Repr))
        invariant ok ==> Prepared(g, al, State(), |g.leafs|, i + 1, i, j)
        invariant Does(g, al, start, CountSteps(g, i, bufferId, j), State(), ok)
      {
        ok := CountNextSource(g, i, j, bufferId, start);
        j := j + 1;
      }
      if !ok {
        CountStepsGrow(g, i, bufferId, j, |Src(g, i)|);
        StopsFirst(g, al, start, CountSteps(g, i, bufferId, j), CountSteps(g, i, bufferId, |Src(g, i)|));
        return;
      }
      PreparedNext(g, al, State(), i);
    }

    method CountOwn(g: Graph, i: nat, bufferId: nat) returns (ok: bool)
      requires Valid() && WellFormed(g) && |g.tensors| == hashValues.Length && SizesOk(g, al)
      requires i < |g.nodes| && bufferId < |tallocs|
      requires Prepared(g, al, State(), |g.leafs|, i, i, 0)
      modifies this`views, this`Repr, hashValues, Repr
      ensures Valid() && fresh(Repr - old(Repr))
      ensures ok ==> Prepared(g, al, State(), |g.leafs|, i + 1, i, 0)
      ensures Does(g, al, old(State()), [SeeNode(g.nodes[i], bufferId)], State(), ok)
    {
      ghost var before := State();
      var node := g.nodes[i];
      if IsView(g, node) && !g.tensors[node].isNone {
        var viewSrc := Root(g, node);
        hashValues[viewSrc] := hashValues[viewSrc].(nViews := hashValues[viewSrc].nViews + 1);
      }
      assert hashValues[..] == CountView(g, before.hn, node);
      forall b | 0 <= b < |tallocs| ensures BufferOk(b) { assert old(BufferOk(b)); }
      CountingKeepsMem(g, al, before, State());
      ghost var counted := State();
      assert counted == Counted(g, before, SeeNode(node, bufferId));
      ok := Offer(g, node, bufferId);
      if ok {
        PreparedNode(g, al, before, State(), i, bufferId);
        OneStep(g, al, before, State(), SeeNode(node, bufferId));
      } else {
        OneStop(g, al, before, SeeNode(node, bufferId));
      }
    }

    method CountNextSource(g: Graph, i: nat, j: nat, bufferId: nat, ghost start: PState) returns (ok: bool)
      requires Valid() && WellFormed(g) && |g.tensors| == hashValues.Length && SizesOk(g, al)
      requires i < |g.nodes| && j < |Src(g, i)| && bufferId < |tallocs|
      requires Prepared(g, al, State(), |g.leafs|, i + 1, i, j)
      requires Runs(g, al, start, CountSteps(g, i, bufferId, j), State())
      modifies this`views, this`Repr, hashValues, Repr
      ensures Valid() && fresh(Repr - old(Repr))
      ensures ok ==> Prepared(g, al, State(), |g.leafs|, i + 1, i, j + 1)
      ensures Does(g, al, start, CountSteps(g, i, bufferId, j + 1), State(), ok)
    {
      ghost var before := State();
      ok := CountSource(g, i, j, bufferId);
      DoesBoth(g, al, start, CountSteps(g, i, bufferId, j), before, [SeeSource(Src(g, i)[j], bufferId)], State(), ok);
    }

    method CountSource(g: Graph, i: nat, j: nat, bufferId: nat) returns (ok: bool)
      requires Valid() && WellFormed(g) && |g.tensors| == hashValues.Length && SizesOk(g, al)
      requires i < |g.nodes| && j < |Src(g, i)| && bufferId < |tallocs|
      requires Prepared(g, al, State(), |g.leafs|, i + 1, i, j)
      modifies this`views, this`Repr, hashValues, Repr
      ensures Valid() && fresh(Repr - old(Repr))
      ensures ok ==> Prepared(g, al, State(), |g.leafs|, i + 1, i, j + 1)
      ensures Does(g, al, old(State()), [SeeSource(Src(g, i)[j], bufferId)], State(), ok)
    {
      ghost var before := State();
      var src := Src(g, i)[j];
      hashValues[src] := hashValues[src].(nChildren := hashValues[src].nChildren + 1);
      assert hashValues[..] == CountSlot(g, before.hn, src);
      forall b | 0 <= b < |tallocs| ensures BufferOk(b) { assert old(BufferOk(b)); }
      CountingKeepsMem(g, al, before, State());
      ghost var counted := State();
      assert counted == Counted(g, before, SeeSource(src, bufferId));
      ok := Offer(g, src, bufferId);
      if ok {
        PreparedSlot(g, al, before, State(), i, j, bufferId);
        OneStep(g, al, before, State(), SeeSource(src, bufferId));
      } else {
        OneStop(g, al, before, SeeSource(src, bufferId));
      }
    }

    /** Places node `i` and passes all its slots. */
    method WalkNode(g: Graph, i: nat, bufferId: nat) returns (ok: bool)
      requires Valid() && WellFormed(g) && |g.tensors| == hashValues.Length && SizesOk(g, al)
      requires i < |g.nodes| && bufferId < |tallocs| && Walk(g, al, State(), i, i, 0, None)
      modifies this`views, this`Repr, hashValues, Repr
      ensures Valid() && fresh(Repr - old(Repr))
      ensures ok ==> Walk(g, al, State(), i + 1, i + 1, 0, None)
      ensures Does(g, al, old(State()), NodeSteps(g, i, bufferId, |Src(g, i)|), State(), ok)
    {
      ghost var start := State();
      ghost var reused := ReusedBy(g, start, g.nodes[i]);
      ok := PlaceNode(g, i, bufferId);
      var j := 0;
      while j < |Src(g, i)| && ok
        invariant j <= |Src(g, i)| && Valid() && fresh(Repr - old(Repr))
        invariant ok ==> Walk(g, al, State(), i + 1, i, j, reused)
        invariant Does(g, al, start, NodeSteps(g, i, bufferId, j), State(), ok)
      {
        ghost var before := State();
        ok := UpdateParent(g, i, j, reused);
        DoesBoth(g, al, start, NodeSteps(g, i, bufferId, j), before, [Pass(Src(g, i)[j])], State(), ok);
        j := j + 1;
      }
      NodeStepsGrow(g, i, bufferId, j, |Src(g, i)|);
      DoesAll(g, al, start, NodeSteps(g, i, bufferId, j), NodeSteps(g, i, bufferId, |Src(g, i)|), State(), ok);
      if ok { NodeDone(g, al, State(), i, reused); }
    }

    method CountNext(g: Graph, nodeBuffers: seq<nat>, i: nat, ghost start: PState) returns (ok: bool)
      requires Valid() && WellFormed(g) && |g.tensors| == hashValues.Length && SizesOk(g, al)
      requires i < |g.nodes| == |nodeBuffers| && nodeBuffers[i] < |tallocs|
      requires Prepared(g, al, State(), |g.leafs|, i, i, 0)
      requires Runs(g, al, start, CountAll(g, nodeBuffers, i), State())
      modifies this`views, this`Repr, hashValues, Repr
      ensures Valid() && fresh(Repr - old(Repr))
      ensures ok ==> Prepared(g, al, State(), |g.leafs|, i + 1, i + 1, 0)
      ensures Does(g, al, start, CountAll(g, nodeBuffers, i + 1), State(), ok)
    {
      ghost var before, steps := State(), CountSteps(g, i, nodeBuffers[i], |Src(g, i)|);
      ok := CountNode(g, i, nodeBuffers[i]);
      DoesBoth(g, al, start, CountAll(g, nodeBuffers, i), before, steps, State(), ok);
    }

    method CountNodes(g: Graph, nodeBuffers: seq<nat>) returns (ok: bool)
      requires Valid() && WellFormed(g) && |g.tensors| == hashValues.Length && SizesOk(g, al)
      requires |nodeBuffers| == |g.nodes| && forall i :: 0 <= i < |nodeBuffers| ==> nodeBuffers[i] < |tallocs|
      requires Prepared(g, al, State(), |g.leafs|, 0, 0, 0)
      modifies this`views, this`Repr, hashValues, Repr
      ensures Valid() && fresh(Repr - old(Repr))
      ensures ok ==> Walk(g, al, State(), 0, 0, 0, None)
      ensures Does(g, al, old(State()), CountAll(g, nodeBuffers, |g.nodes|), State(), ok)
    {
      ok := true;
      ghost var start := State();
      var i := 0;
      while i < |g.nodes| && ok
        invariant i <= |g.nodes| && Valid() && fresh(Repr - old(Repr))
        invariant ok ==> Prepared(g, al, State(), |g.leafs|, i, i, 0)
        invariant Does(g, al, start, CountAll(g, nodeBuffers, i), State(), ok)
      {
        ok := CountNext(g, nodeBuffers, i, start);
        i := i + 1;
      }
      AllCounted(g, al, nodeBuffers, start, State(), i, ok);
    }

    method WalkNext(g: Graph, nodeBuffers: seq<nat>, i: nat, ghost start: PState) returns (ok: bool)
      requires Valid() && WellFormed(g) && |g.tensors| == hashValues.Length && SizesOk(g, al)
      requires i < |g.nodes| == |nodeBuffers| && nodeBuffers[i] < |tallocs|
      requires Walk(g, al, State(), i, i, 0, None)
      requires Runs(g, al, start, WalkSteps(g, nodeBuffers, i), State())
      modifies this`views, this`Repr, hashValues, Repr
      ensures Valid() && fresh(Repr - old(Repr))
      ensures ok ==> Walk(g, al, State(), i + 1, i + 1, 0, None)
      ensures Does(g, al, start, WalkSteps(g, nodeBuffers, i + 1), State(), ok)
    {
      ghost var before, steps := State(), NodeSteps(g, i, nodeBuffers[i], |Src(g, i)|);
      ok := WalkNode(g, i, nodeBuffers[i]);
      DoesBoth(g, al, start, WalkSteps(g, nodeBuffers, i), before, steps, State(), ok);
    }

    method WalkNodes(g: Graph, nodeBuffers: seq<nat>) returns (ok: bool)
      requires Valid() && WellFormed(g) && |g.tensors| == hashValues.Length && SizesOk(g, al)
      requires |nodeBuffers| == |g.nodes| && forall i :: 0 <= i < |nodeBuffers| ==> nodeBuffers[i] < |tallocs|
      requires Walk(g, al, State(), 0, 0, 0, None)
      modifies this`views, this`Repr, hashValues, Repr
      ensures Valid() && fresh(Repr - old(Repr))
      ensures ok ==> Walk(g, al, State(), |g.nodes|, |g.nodes|, 0, None)
      ensures Does(g, al, old(State()), WalkSteps(g, nodeBuffers, |g.nodes|), State(), ok)
    {
      ghost var start := State();
      ok := true;
      var i := 0;
      while i < |g.nodes| && ok
        invariant i <= |g.nodes| && Valid() && fresh(Repr - old(Repr))
        invariant ok ==> Walk(g, al, State(), i, i, 0, None)
        invariant Does(g, al, start, WalkSteps(g, nodeBuffers, i), State(), ok)
      {
        ok := WalkNext(g, nodeBuffers, i, start);
        i := i + 1;
      }
      if !ok {
        WalkStepsGrow(g, nodeBuffers, i, |g.nodes|);
        StopsFirst(g, al, start, WalkSteps(g, nodeBuffers, i), WalkSteps(g, nodeBuffers, |g.nodes|));
      }
    }

    /** Plans a whole graph: makes the steps of its program, or stops at the first that cannot be made.
        When it does not stop, running the graph on the planned flat memory is running it on private
        storage, inputs get memory of their own, every tensor is in its buffer or takes over a source as
        the graph says, every place lies inside its chunk's planned size, and at the end exactly the
        persistent tensors still hold memory. */
    method AllocGraphImpl(g: Graph, nodeBuffers: seq<nat>, leafBuffers: seq<nat>) returns (ok: bool)
      requires Valid() && WellFormed(g) && |g.tensors| == hashValues.Length && SizesOk(g, al)
      requires |nodeBuffers| == |g.nodes| && forall i :: 0 <= i < |nodeBuffers| ==> nodeBuffers[i] < |tallocs|
      requires |leafBuffers| == |g.leafs| && forall i :: 0 <= i < |leafBuffers| ==> leafBuffers[i] < |tallocs|
      modifies this`views, this`Repr, hashValues, Repr
      ensures Valid() && fresh(Repr - old(Repr))
      ensures Does(g, al, Empty(g, old(views)), PlanSteps(g, nodeBuffers, leafBuffers), State(), ok)
      ensures ok <==> !Stops(g, al, Empty(g, old(views)), PlanSteps(g, nodeBuffers, leafBuffers))
      ensures ok ==> NonInterfering(g, PlanOf(hashValues[..])) && InitialApart(g, PlanOf(hashValues[..]))
      ensures ok ==> RunsLikePrivate(g, PlanOf(hashValues[..]))
      ensures ok ==> InItsBuffer(g, hashValues[..], nodeBuffers, leafBuffers)
      ensures ok ==> InBounds(g, al, State(), |g.nodes|)
      ensures ok ==>
          forall t :: 0 <= t < |g.tensors| ==> (hashValues[t].held <==> Placed(g, t, |g.nodes|) && Persistent(g, t))
    {
      Clear();
      assert State() == Empty(g, old(views));
      ViewsAreBacked();
      ViewsStaySound();
      BlankIsPrepared(g, al, State());
      ghost var start, steps := State(), PlanSteps(g, nodeBuffers, leafBuffers);
      ok := MakeSteps(g, nodeBuffers, leafBuffers);
      if ok {
        RunsDoNotStop(g, al, start, steps, State());
        PlanIsInItsBuffers(g, al, start.views, nodeBuffers, leafBuffers, State());
        WalkIsDone(g, al, State());
      }
    }

    method MakeSteps(g: Graph, nodeBuffers: seq<nat>, leafBuffers: seq<nat>) returns (ok: bool)
      requires Valid() && WellFormed(g) && |g.tensors| == hashValues.Length && SizesOk(g, al)
      requires |nodeBuffers| == |g.nodes| && forall i :: 0 <= i < |nodeBuffers| ==> nodeBuffers[i] < |tallocs|
      requires |leafBuffers| == |g.leafs| && forall i :: 0 <= i < |leafBuffers| ==> leafBuffers[i] < |tallocs|
      requires Prepared(g, al, State(), 0, 0, 0, 0)
      modifies this`views, this`Repr, hashValues, Repr
      ensures Valid() && fresh(Repr - old(Repr))
      ensures ok ==> Walk(g, al, State(), |g.nodes|, |g.nodes|, 0, None)
      ensures Does(g, al, old(State()), PlanSteps(g, nodeBuffers, leafBuffers), State(), ok)
    {
      ghost var start := State();
      ok := AllocateLeafs(g, leafBuffers);
      ghost var leafs := LeafSteps(g, leafBuffers, |g.leafs|);
      ghost var counts, walk := CountAll(g, nodeBuffers, |g.nodes|), WalkSteps(g, nodeBuffers, |g.nodes|);
      if !ok {
        StopsFirst(g, al, start, leafs, leafs + (counts + walk));
        return;
      }
      ghost var mid := State();
      ok := CountAndWalk(g, nodeBuffers);
      DoesBoth(g, al, start, leafs, mid, counts + walk, State(), ok);
    }

    method CountAndWalk(g: Graph, nodeBuffers: seq<nat>) returns (ok: bool)
      requires Valid() && WellFormed(g) && |g.tensors| == hashValues.Length && SizesOk(g, al)
      requires |nodeBuffers| == |g.nodes| && forall i :: 0 <= i < |nodeBuffers| ==> nodeBuffers[i] < |tallocs|
      requires Prepared(g, al, State(), |g.leafs|, 0, 0, 0)
      modifies this`views, this`Repr, hashValues, Repr
      ensures Valid() && fresh(Repr - old(Repr))
      ensures ok ==> Walk(g, al, State(), |g.nodes|, |g.nodes|, 0, None)
      ensures Does(g, al, old(State()), CountAll(g, nodeBuffers, |g.nodes|) + WalkSteps(g, nodeBuffers, |g.nodes|),
          State(), ok)
    {
      ghost var start := State();
      ghost var counts, walk := CountAll(g, nodeBuffers, |g.nodes|), WalkSteps(g, nodeBuffers, |g.nodes|);
      ok := CountNodes(g, nodeBuffers);
      if !ok {
        StopsFirst(g, al, start, counts, counts + walk);
        return;
      }
      ghost var mid := State();
      ok := WalkNodes(g, nodeBuffers);
      DoesBoth(g, al, start, counts, mid, walk, State(), ok);
    }

    /** Plans a graph from scratch: whatever was planned before is forgotten. */
    method Reserve(g: Graph, nodeBuffers: seq<nat>, leafBuffers: seq<nat>) returns (ok: bool)
      requires Valid() && WellFormed(g) && |g.tensors| == hashValues.Length && SizesOk(g, al)
      requires |nodeBuffers| == |g.nodes| && forall i :: 0 <= i < |nodeBuffers| ==> nodeBuffers[i] < |tallocs|
      requires |leafBuffers| == |g.leafs| && forall i :: 0 <= i < |leafBuffers| ==> leafBuffers[i] < |tallocs|
      modifies this`views, this`Repr, hashValues, Repr
      ensures Valid() && fresh(Repr - old(Repr))
      ensures Does(g, al, Empty(g, seq(|al|, _ => [])), PlanSteps(g, nodeBuffers, leafBuffers), State(), ok)
      ensures ok <==> !Stops(g, al, Empty(g, seq(|al|, _ => [])), PlanSteps(g, nodeBuffers, leafBuffers))
      ensures ok ==> NonInterfering(g, PlanOf(hashValues[..])) && InitialApart(g, PlanOf(hashValues[..]))
      ensures ok ==> RunsLikePrivate(g, PlanOf(hashValues[..])) && InBounds(g, al, State(), |g.nodes|)
      ensures ok ==> InItsBuffer(g, hashValues[..], nodeBuffers, leafBuffers)
    {
      var i := 0;
      while i < |tallocs|
        invariant i <= |tallocs| && Valid() && Repr == old(Repr)
        invariant forall b :: 0 <= b < i ==> views[b] == []
      {
        ResetTalloc(i);
        i := i + 1;
      }
      assert views == seq(|al|, _ => []);
      ok := AllocGraphImpl(g, nodeBuffers, leafBuffers);
    }

    method ResetTalloc(b: nat)
      requires Valid() && b < |tallocs|
      modifies this`views, tallocs[b]
      ensures Valid() && views == old(views)[b := []] && Repr == old(Repr)
    {
      assert BufferOk(b);
      tallocs[b].Reset();
      views := views[b := []];
      assert BufferOk(b);
      forall c | 0 <= c < |tallocs| && c != b ensures BufferOk(c) {
        assert old(BufferOk(c)) && old(tallocs[b].Repr !! tallocs[c].Repr);
      }
    }

    method Clear()
      requires Valid()
      modifies hashValues
      ensures Valid() && views == old(views)
      ensures forall t :: 0 <= t < hashValues.Length ==> hashValues[t] == BLANK
    {
      forall t | 0 <= t < hashValues.Length { hashValues[t] := BLANK; }
      forall b | 0 <= b < |tallocs| ensures BufferOk(b) { assert old(BufferOk(b)); }
    }
  }
}
