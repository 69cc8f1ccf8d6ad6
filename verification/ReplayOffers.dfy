/** Which graphs a recorded plan is used for, and which place each tensor is then handed, stated on the two
    graphs and the plan. */
module ReplayOffers {
  import opened Wrappers
  import opened Graphs
  import opened Executions
  import opened PlannerSpec
  import opened Replay

  // ---- which graphs are accepted

  /** Tensor `u` of `h` needs no more than tensor `t` of the recorded graph has, or no memory at all. */
  ghost predicate FitsAs(g: Graph, plan: Plan, t: nat, h: Graph, u: nat)
    requires t < |g.tensors| == |plan| && u < |h.tensors|
  {
    Owned(h, u) ==> Owned(g, t) && Size(h, u, plan[t].buffer) <= Size(g, t, plan[t].buffer)
  }

  /** Source `j` of node `i` fits as the source that the recorded node has in the same slot. */
  ghost predicate SourceFits(g: Graph, plan: Plan, h: Graph, i: nat, j: nat)
    requires |g.tensors| == |plan| && i < |h.nodes| == |g.nodes| && j < |Src(h, i)|
    requires SlotsInOrder(g) && SlotsInOrder(h)
  {
    Owned(h, Src(h, i)[j]) ==>
      exists k :: 0 <= k < |Src(g, i)| && SlotOf(g, i, k) == SlotOf(h, i, j)
                  && FitsAs(g, plan, Src(g, i)[k], h, Src(h, i)[j])
  }

  ghost predicate AllFit(g: Graph, plan: Plan, h: Graph)
    requires |g.tensors| == |plan| && SlotsInOrder(g) && SlotsInOrder(h)
  {
    && |h.nodes| == |g.nodes| && |h.leafs| == |g.leafs|
    && forall i :: 0 <= i < |h.nodes| ==> NodeFitsAs(g, plan, h, i)
  }

  ghost predicate NodeFitsAs(g: Graph, plan: Plan, h: Graph, i: nat)
    requires |g.tensors| == |plan| && SlotsInOrder(g) && SlotsInOrder(h) && i < |h.nodes| == |g.nodes|
  {
    && FitsAs(g, plan, g.nodes[i], h, h.nodes[i])
    && forall j :: 0 <= j < |Src(h, i)| ==> SourceFits(g, plan, h, i, j)
  }

  lemma AcceptsIsFits(g: Graph, plan: Plan, t: nat, h: Graph, u: nat)
    requires t < |g.tensors| == |plan| && u < |h.tensors|
    ensures Accepts(h, u, AllocOf(g, plan, t)) <==> FitsAs(g, plan, t, h, u)
  {
  }

  lemma SourceAccepted(p: PlanRecord, g: Graph, plan: Plan, h: Graph, i: nat, j: nat)
    requires p.Records(g, plan) && SlotsInOrder(h) && i < |h.nodes| == |g.nodes| && j < |Src(h, i)|
    ensures Accepts(h, Src(h, i)[j], p.nodeAllocs[i].src[SlotOf(h, i, j)]) <==> SourceFits(g, plan, h, i, j)
  {
    var s, u, a := SlotOf(h, i, j), Src(h, i)[j], p.nodeAllocs[i];
    assert RecordsNode(g, plan, i, a);
    var slots := g.tensors[g.nodes[i]].slots;
    assert InOrder(slots, |Src(g, i)|);
    if s in slots {
      var k :| 0 <= k < |slots| && slots[k] == s;
      assert SlotOf(g, i, k) == s;
      AcceptsIsFits(g, plan, Src(g, i)[k], h, u);
      forall l | 0 <= l < |Src(g, i)| && SlotOf(g, i, l) == s ensures l == k {
        assert slots[l] == s;
      }
    } else {
      assert a.src[s] == NO_ALLOC;
      forall l | 0 <= l < |Src(g, i)| ensures SlotOf(g, i, l) != s { assert slots[l] in slots; }
    }
  }

  /** A graph is accepted if and only if it has as many nodes and leafs as the recorded one, and every node,
      and every source in the slot it is in, needs no more memory than its counterpart was given. */
  lemma AcceptedExactly(p: PlanRecord, g: Graph, plan: Plan, h: Graph)
    requires p.Records(g, plan) && SlotsInOrder(h)
    ensures p.Usable(h) <==> AllFit(g, plan, h)
  {
    if |h.nodes| == |g.nodes| {
      forall i | 0 <= i < |h.nodes| ensures p.NodeFits(h, i) <==> NodeFitsAs(g, plan, h, i) {
        assert RecordsNode(g, plan, i, p.nodeAllocs[i]);
        AcceptsIsFits(g, plan, g.nodes[i], h, h.nodes[i]);
        forall j | 0 <= j < |Src(h, i)|
          ensures Accepts(h, Src(h, i)[j], p.nodeAllocs[i].src[SlotOf(h, i, j)]) <==> SourceFits(g, plan, h, i, j)
        {
          SourceAccepted(p, g, plan, h, i, j);
        }
      }
    }
  }

  /** In particular the recorded graph itself. */
  lemma RecordedIsAccepted(p: PlanRecord, g: Graph, plan: Plan)
    requires p.Records(g, plan)
    ensures p.Usable(g)
  {
    forall i | 0 <= i < |g.nodes| ensures NodeFitsAs(g, plan, g, i) {
      forall j | 0 <= j < |Src(g, i)| ensures SourceFits(g, plan, g, i, j) {
        assert FitsAs(g, plan, Src(g, i)[j], g, Src(g, i)[j]);
      }
    }
    AcceptedExactly(p, g, plan, g);
  }

  // ---- which place is handed out

  ghost predicate NotListed(list: seq<Entry>, t: nat) {
    forall k :: 0 <= k < |list| ==> list[k].t != t
  }

  lemma FirstEntryWins(before: seq<Entry>, x: Entry, list: seq<Entry>, p: Option<Place>)
    requires NotListed(before, x.t) && x.alloc.place.Some? && before + [x] <= list && TakesFirst(list, x.t, p)
    ensures p == x.alloc.place
  {
    assert list[|before|] == x;
    assert forall k :: 0 <= k < |before| ==> list[k] == before[k];
  }

  lemma {:induction false} MetGrows(p: PlanRecord, g: Graph, n: nat, m: nat)
    requires SlotsInOrder(g) && |g.leafs| == |p.leafAllocs| && n <= m <= |g.nodes| == |p.nodeAllocs|
    ensures p.Met(g, |g.leafs|, n) <= p.Met(g, |g.leafs|, m)
  {
    if n < m { MetGrows(p, g, n, m - 1); }
  }

  lemma {:induction false} LeafsGrow(p: PlanRecord, g: Graph, n: nat, m: nat)
    requires SlotsInOrder(g) && n <= m <= |g.leafs| == |p.leafAllocs| && |g.nodes| == |p.nodeAllocs|
    ensures p.Met(g, n, 0) <= p.Met(g, m, 0)
  {
    if n < m { LeafsGrow(p, g, n, m - 1); }
  }

  lemma {:induction false} SourcesGrow(p: PlanRecord, g: Graph, i: nat, n: nat, m: nat)
    requires SlotsInOrder(g) && i < |g.nodes| == |p.nodeAllocs| && n <= m <= |Src(g, i)|
    ensures p.MetSources(g, i, n) <= p.MetSources(g, i, m)
  {
    if n < m { SourcesGrow(p, g, i, n, m - 1); }
  }

  lemma {:induction false} LeafNotListed(p: PlanRecord, g: Graph, n: nat, t: nat)
    requires SlotsInOrder(g) && n <= |g.leafs| == |p.leafAllocs| && |g.nodes| == |p.nodeAllocs| && t !in g.leafs[..n]
    ensures NotListed(p.Met(g, n, 0), t)
  {
    if n > 0 {
      assert g.leafs[..n] == g.leafs[..n - 1] + [g.leafs[n - 1]];
      LeafNotListed(p, g, n - 1, t);
    }
  }

  lemma {:induction false} SourceNotListed(p: PlanRecord, g: Graph, i: nat, n: nat, t: nat)
    requires SlotsInOrder(g) && i < |g.nodes| == |p.nodeAllocs| && n <= |Src(g, i)| && t !in Src(g, i)[..n]
    ensures NotListed(p.MetSources(g, i, n), t)
  {
    if n > 0 {
      assert Src(g, i)[..n] == Src(g, i)[..n - 1] + [Src(g, i)[n - 1]];
      SourceNotListed(p, g, i, n - 1, t);
    }
  }

  /** Node `k` is `t` or reads it. */
  predicate Meets(g: Graph, t: nat, k: nat)
    requires k < |g.nodes|
  {
    g.nodes[k] == t || t in Src(g, k)
  }

  lemma {:induction false} NodeNotListed(p: PlanRecord, g: Graph, n: nat, t: nat)
    requires SlotsInOrder(g) && |g.leafs| == |p.leafAllocs| && n <= |g.nodes| == |p.nodeAllocs| && t !in g.leafs
    requires forall k :: 0 <= k < n ==> !Meets(g, t, k)
    ensures NotListed(p.Met(g, |g.leafs|, n), t)
  {
    if n == 0 {
      assert g.leafs[..|g.leafs|] == g.leafs;
      LeafNotListed(p, g, |g.leafs|, t);
    } else {
      NodeNotListed(p, g, n - 1, t);
      assert !Meets(g, t, n - 1);
      assert Src(g, n - 1)[..|Src(g, n - 1)|] == Src(g, n - 1);
      SourceNotListed(p, g, n - 1, |Src(g, n - 1)|, t);
    }
  }

  /** A leaf gets the place recorded for the leaf at the same position, */
  lemma LeafIsHanded(p: PlanRecord, h: Graph, places: seq<Option<Place>>, i: nat)
    requires SlotsInOrder(h) && |h.leafs| == |p.leafAllocs| && |h.nodes| == |p.nodeAllocs|
    requires Assigned(h, p.Met(h, |h.leafs|, |h.nodes|), places)
    requires i < |h.leafs| && Owned(h, h.leafs[i]) && h.leafs[i] !in h.leafs[..i] && p.leafAllocs[i].place.Some?
    ensures places[h.leafs[i]] == p.leafAllocs[i].place
  {
    var t := h.leafs[i];
    LeafNotListed(p, h, i, t);
    LeafsGrow(p, h, i + 1, |h.leafs|);
    MetGrows(p, h, 0, |h.nodes|);
    FirstEntryWins(p.Met(h, i, 0), Entry(t, p.leafAllocs[i]), p.Met(h, |h.leafs|, |h.nodes|), places[t]);
  }

  /** a source that is no leaf and has not been met before the place recorded for its slot, */
  lemma SourceIsHanded(p: PlanRecord, h: Graph, places: seq<Option<Place>>, i: nat, j: nat)
    requires SlotsInOrder(h) && |h.leafs| == |p.leafAllocs| && |h.nodes| == |p.nodeAllocs|
    requires Assigned(h, p.Met(h, |h.leafs|, |h.nodes|), places)
    requires i < |h.nodes| && j < |Src(h, i)| && Owned(h, Src(h, i)[j]) && Src(h, i)[j] !in h.leafs
    requires Src(h, i)[j] !in Src(h, i)[..j] && forall k :: 0 <= k < i ==> !Meets(h, Src(h, i)[j], k)
    requires p.nodeAllocs[i].src[SlotOf(h, i, j)].place.Some?
    ensures places[Src(h, i)[j]] == p.nodeAllocs[i].src[SlotOf(h, i, j)].place
  {
    var t, x := Src(h, i)[j], Entry(Src(h, i)[j], p.nodeAllocs[i].src[SlotOf(h, i, j)]);
    NodeNotListed(p, h, i, t);
    SourceNotListed(p, h, i, j, t);
    SourcesGrow(p, h, i, j + 1, |Src(h, i)|);
    MetGrows(p, h, i + 1, |h.nodes|);
    var before := p.Met(h, |h.leafs|, i) + p.MetSources(h, i, j);
    assert before + [x] == p.Met(h, |h.leafs|, i) + p.MetSources(h, i, j + 1);
    FirstEntryWins(before, x, p.Met(h, |h.leafs|, |h.nodes|), places[t]);
  }

  /** and a node that has not been met before its own. */
  lemma NodeIsHanded(p: PlanRecord, h: Graph, places: seq<Option<Place>>, i: nat)
    requires SlotsInOrder(h) && |h.leafs| == |p.leafAllocs| && |h.nodes| == |p.nodeAllocs|
    requires Assigned(h, p.Met(h, |h.leafs|, |h.nodes|), places)
    requires i < |h.nodes| && Owned(h, h.nodes[i]) && h.nodes[i] !in h.leafs && h.nodes[i] !in Src(h, i)
    requires forall k :: 0 <= k < i ==> !Meets(h, h.nodes[i], k)
    requires p.nodeAllocs[i].dst.place.Some?
    ensures places[h.nodes[i]] == p.nodeAllocs[i].dst.place
  {
    var t, n := h.nodes[i], |Src(h, i)|;
    NodeNotListed(p, h, i, t);
    assert Src(h, i)[..n] == Src(h, i);
    SourceNotListed(p, h, i, n, t);
    MetGrows(p, h, i + 1, |h.nodes|);
    var before := p.Met(h, |h.leafs|, i) + p.MetSources(h, i, n);
    FirstEntryWins(before, Entry(t, p.nodeAllocs[i].dst), p.Met(h, |h.leafs|, |h.nodes|), places[t]);
  }
}
