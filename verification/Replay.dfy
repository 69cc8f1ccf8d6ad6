/** Recording a plan, and using it again for other graphs. */
module Replay {
  import opened Wrappers
  import opened DynTallocrs
  import opened Graphs
  import opened Executions
  import opened ExactPlans
  import opened PlannerSpec

  /** The recorded place of a tensor; no place if it is a view or was allocated elsewhere. */
  datatype TensorAlloc = TensorAlloc(place: Option<Place>, sizeMax: nat)

  const MAX_SRC := 10

  /** Every source of a node has a slot of its own. */
  ghost predicate SlotsInOrder(g: Graph) {
    forall i :: 0 <= i < |g.nodes| ==> InOrder(g.tensors[g.nodes[i]].slots, |Src(g, i)|)
  }

  ghost predicate InOrder(slots: seq<nat>, n: nat) {
    && |slots| == n
    && (forall j :: 0 <= j < n ==> slots[j] < MAX_SRC)
    && (forall j, k :: 0 <= j < k < n ==> slots[j] < slots[k])
  }

  /** The slot of the `j`-th source of node `i`. */
  function SlotOf(g: Graph, i: nat, j: nat): (s: nat)
    requires SlotsInOrder(g) && i < |g.nodes| && j < |Src(g, i)|
    ensures s < MAX_SRC
  {
    assert InOrder(g.tensors[g.nodes[i]].slots, |Src(g, i)|);
    g.tensors[g.nodes[i]].slots[j]
  }

  const NO_ALLOC := TensorAlloc(None, 0)

  /** One entry for each source slot. */
  type SlotTable = a: seq<TensorAlloc> | |a| == MAX_SRC witness seq(MAX_SRC, _ => NO_ALLOC)

  datatype NodeAlloc = NodeAlloc(dst: TensorAlloc, src: SlotTable)

  function AllocOf(g: Graph, plan: Plan, t: nat): TensorAlloc
    requires t < |g.tensors| == |plan|
  {
    if Owned(g, t) then TensorAlloc(Some(plan[t]), Size(g, t, plan[t].buffer)) else NO_ALLOC
  }

  /** The tensor may be put where the record says. */
  predicate Accepts(g: Graph, t: nat, a: TensorAlloc)
    requires t < |g.tensors|
  {
    if Owned(g, t) then a.place.Some? && Size(g, t, a.place.value.buffer) <= a.sizeMax else true
  }

  class PlanRecord {
    var nodeAllocs: seq<NodeAlloc>
    var leafAllocs: seq<TensorAlloc>

    constructor ()
      ensures nodeAllocs == [] && leafAllocs == []
    {
      nodeAllocs, leafAllocs := [], [];
    }

    /** The record is that of planning `g` with result `plan`. */
    ghost predicate Records(g: Graph, plan: Plan)
      reads this
    {
      && SlotsInOrder(g) && |plan| == |g.tensors| && |nodeAllocs| == |g.nodes| && |leafAllocs| == |g.leafs|
      && (forall i :: 0 <= i < |g.nodes| ==> RecordsNode(g, plan, i, nodeAllocs[i]))
      && (forall i :: 0 <= i < |g.leafs| ==> leafAllocs[i] == AllocOf(g, plan, g.leafs[i]))
    }

    method Record(g: Graph, plan: Plan)
      requires |plan| == |g.tensors| && SlotsInOrder(g)
      modifies this
      ensures Records(g, plan)
    {
      nodeAllocs := [];
      var i := 0;
      while i < |g.nodes|
        invariant i <= |g.nodes| && |nodeAllocs| == i
        invariant forall k :: 0 <= k < i ==> RecordsNode(g, plan, k, nodeAllocs[k])
      {
        var src := RecordSources(g, plan, i);
        nodeAllocs := nodeAllocs + [NodeAlloc(AllocOf(g, plan, g.nodes[i]), src)];
        i := i + 1;
      }
      leafAllocs := [];
      ghost var recorded := nodeAllocs;
      i := 0;
      while i < |g.leafs|
        invariant i <= |g.leafs| && |leafAllocs| == i && nodeAllocs == recorded
        invariant forall k :: 0 <= k < i ==> leafAllocs[k] == AllocOf(g, plan, g.leafs[k])
      {
        leafAllocs := leafAllocs + [AllocOf(g, plan, g.leafs[i])];
        i := i + 1;
      }
    }

    method RecordSources(g: Graph, plan: Plan, i: nat) returns (src: SlotTable)
      requires |plan| == |g.tensors| && SlotsInOrder(g) && i < |g.nodes|
      ensures RecordsNode(g, plan, i, NodeAlloc(AllocOf(g, plan, g.nodes[i]), src))
    {
      var t := g.tensors[g.nodes[i]];
      assert InOrder(t.slots, |t.src|);
      var row: seq<TensorAlloc> := [];
      var j := 0;
      while |row| < MAX_SRC
        invariant |row| <= MAX_SRC && j <= |t.src|
        invariant (forall k :: 0 <= k < j ==> t.slots[k] < |row|) && (j < |t.src| ==> |row| <= t.slots[j])
        invariant forall k :: 0 <= k < j ==> row[t.slots[k]] == AllocOf(g, plan, t.src[k])
        invariant forall m :: 0 <= m < |row| && m !in t.slots ==> row[m] == NO_ALLOC
        decreases MAX_SRC - |row|
      {
        if j < |t.src| && t.slots[j] == |row| {
          row := row + [AllocOf(g, plan, t.src[j])];
          j := j + 1;
        } else {
          row := row + [NO_ALLOC];
        }
      }
      src := row;
    }

    /** Node `i` of `g` and its sources fit where the record puts them. */
    predicate NodeFits(g: Graph, i: nat)
      requires SlotsInOrder(g) && i < |g.nodes| == |nodeAllocs|
      reads this
    {
      && Accepts(g, g.nodes[i], nodeAllocs[i].dst)
      && forall j :: 0 <= j < |Src(g, i)| ==> Accepts(g, Src(g, i)[j], nodeAllocs[i].src[SlotOf(g, i, j)])
    }

    /** The record may be used for `g`. */
    predicate Usable(g: Graph)
      requires SlotsInOrder(g)
      reads this
    {
      |g.nodes| == |nodeAllocs| && |g.leafs| == |leafAllocs| && forall i :: 0 <= i < |g.nodes| ==> NodeFits(g, i)
    }

    /** And so do the leafs, which is not compared. */
    predicate LeafsFit(g: Graph)
      requires |g.leafs| == |leafAllocs|
      reads this
    {
      forall i :: 0 <= i < |g.leafs| ==> Accepts(g, g.leafs[i], leafAllocs[i])
    }

    /** Whether the record cannot be used for `g`: only the numbers of nodes and leafs and the sizes
        of nodes and their sources are compared. */
    method NeedsRealloc(g: Graph) returns (r: bool)
      requires SlotsInOrder(g)
      ensures r <==> !Usable(g)
    {
      if |nodeAllocs| != |g.nodes| { return true; }
      if |leafAllocs| != |g.leafs| { return true; }
      var i := 0;
      while i < |g.nodes|
        invariant i <= |g.nodes| && forall k :: 0 <= k < i ==> NodeFits(g, k)
      {
        if !Accepts(g, g.nodes[i], nodeAllocs[i].dst) {
          assert !NodeFits(g, i);
          return true;
        }
        var j := 0;
        while j < |Src(g, i)|
          invariant j <= |Src(g, i)|
          invariant forall k :: 0 <= k < j ==> Accepts(g, Src(g, i)[k], nodeAllocs[i].src[SlotOf(g, i, k)])
        {
          if !Accepts(g, Src(g, i)[j], nodeAllocs[i].src[SlotOf(g, i, j)]) {
            assert !NodeFits(g, i);
            return true;
          }
          j := j + 1;
        }
        i := i + 1;
      }
      r := false;
    }

    /** Hands the recorded places out: a tensor takes the first record it is met with, going over the
        leafs and then over the nodes, sources first. */
    method Assign(g: Graph, places: array<Option<Place>>)
      requires SlotsInOrder(g) && places.Length == |g.tensors| && Usable(g)
      requires forall t :: 0 <= t < places.Length ==> places[t] == None
      modifies places
      ensures Usable(g) && Assigned(g, Met(g, |g.leafs|, |g.nodes|), places[..])
    {
      var i := 0;
      while i < |g.leafs|
        invariant i <= |g.leafs| && Assigned(g, Met(g, i, 0), places[..])
      {
        InitTensor(g, g.leafs[i], leafAllocs[i], places, Met(g, i, 0));
        i := i + 1;
      }
      i := 0;
      while i < |g.nodes|
        invariant i <= |g.nodes| && Assigned(g, Met(g, |g.leafs|, i), places[..])
      {
        AssignNode(g, i, places);
        i := i + 1;
      }
    }

    method AssignNode(g: Graph, i: nat, places: array<Option<Place>>)
      requires SlotsInOrder(g) && places.Length == |g.tensors| && Usable(g) && i < |g.nodes|
      requires Assigned(g, Met(g, |g.leafs|, i), places[..])
      modifies places
      ensures Usable(g) && Assigned(g, Met(g, |g.leafs|, i + 1), places[..])
    {
      ghost var before := Met(g, |g.leafs|, i);
      var j := 0;
      assert before + MetSources(g, i, 0) == before;
      while j < |Src(g, i)|
        invariant j <= |Src(g, i)| && Assigned(g, before + MetSources(g, i, j), places[..])
      {
        InitTensor(g, Src(g, i)[j], nodeAllocs[i].src[SlotOf(g, i, j)], places, before + MetSources(g, i, j));
        assert before + MetSources(g, i, j + 1)
            == before + MetSources(g, i, j) + [Entry(Src(g, i)[j], nodeAllocs[i].src[SlotOf(g, i, j)])];
        j := j + 1;
      }
      InitTensor(g, g.nodes[i], nodeAllocs[i].dst, places, before + MetSources(g, i, |Src(g, i)|));
      assert Met(g, |g.leafs|, i + 1)
          == before + MetSources(g, i, |Src(g, i)|) + [Entry(g.nodes[i], nodeAllocs[i].dst)];
    }

    /** The tensors met with their records: the first leafs, then the first nodes with their sources. */
    ghost function Met(g: Graph, leafs: nat, nodes: nat): seq<Entry>
      requires SlotsInOrder(g) && leafs <= |g.leafs| == |leafAllocs| && nodes <= |g.nodes| == |nodeAllocs|
      reads this
      decreases leafs + nodes
    {
      if nodes > 0 then
        Met(g, leafs, nodes - 1) + MetSources(g, nodes - 1, |Src(g, nodes - 1)|)
            + [Entry(g.nodes[nodes - 1], nodeAllocs[nodes - 1].dst)]
      else if leafs > 0 then Met(g, leafs - 1, 0) + [Entry(g.leafs[leafs - 1], leafAllocs[leafs - 1])]
      else []
    }

    ghost function MetSources(g: Graph, i: nat, j: nat): seq<Entry>
      requires SlotsInOrder(g) && i < |g.nodes| == |nodeAllocs| && j <= |Src(g, i)|
      reads this
    {
      if j == 0 then [] else MetSources(g, i, j - 1) + [Entry(Src(g, i)[j - 1], nodeAllocs[i].src[SlotOf(g, i, j - 1)])]
    }

    /** Used for a graph of the same shape, the record hands out the plan it was made from. */
    lemma {:induction false} MetIsPlanned(first: Graph, g: Graph, plan: Plan, leafs: nat, nodes: nat)
      requires Records(first, plan) && SameShape(first, g) && SlotsInOrder(g) && leafs <= |g.leafs|
      requires nodes <= |g.nodes|
      ensures forall k :: 0 <= k < |Met(g, leafs, nodes)| ==> PlannedEntry(g, plan, Met(g, leafs, nodes)[k])
      decreases leafs + nodes
    {
      if nodes > 0 {
        MetIsPlanned(first, g, plan, leafs, nodes - 1);
        MetSourcesArePlanned(first, g, plan, nodes - 1, |Src(g, nodes - 1)|);
        assert RecordsNode(first, plan, nodes - 1, nodeAllocs[nodes - 1]);
      } else if leafs > 0 {
        MetIsPlanned(first, g, plan, leafs - 1, 0);
      }
    }

    lemma {:induction false} MetSourcesArePlanned(first: Graph, g: Graph, plan: Plan, i: nat, j: nat)
      requires Records(first, plan) && SameShape(first, g) && SlotsInOrder(g) && i < |g.nodes| && j <= |Src(g, i)|
      ensures forall k :: 0 <= k < |MetSources(g, i, j)| ==> PlannedEntry(g, plan, MetSources(g, i, j)[k])
    {
      if j > 0 {
        MetSourcesArePlanned(first, g, plan, i, j - 1);
        assert RecordsNode(first, plan, i, nodeAllocs[i]);
        assert SlotOf(first, i, j - 1) == SlotOf(g, i, j - 1) && Src(first, i)[j - 1] == Src(g, i)[j - 1];
      }
    }
  }

  ghost predicate Listed(list: seq<Entry>, t: nat) {
    exists k :: 0 <= k < |list| && list[k].t == t
  }

  lemma ListedInLonger(a: seq<Entry>, b: seq<Entry>, t: nat)
    requires Listed(a, t) || Listed(b, t)
    ensures Listed(a + b, t)
  {
    if Listed(a, t) {
      var k :| 0 <= k < |a| && a[k].t == t;
      assert (a + b)[k].t == t;
    } else {
      var k :| 0 <= k < |b| && b[k].t == t;
      assert (a + b)[|a| + k].t == t;
    }
  }

  /** Whatever a plan covers is met when it is handed out. */
  lemma PlacedIsListed(p: PlanRecord, g: Graph, t: nat)
    requires SlotsInOrder(g) && |g.nodes| == |p.nodeAllocs| && |g.leafs| == |p.leafAllocs| && Placed(g, t, |g.nodes|)
    ensures Listed(p.Met(g, |g.leafs|, |g.nodes|), t)
  {
    if t in g.nodes {
      var i :| 0 <= i < |g.nodes| && g.nodes[i] == t;
      NodeIsListed(p, g, |g.nodes|, i, |Src(g, i)|);
    } else if t in g.leafs {
      var i :| 0 <= i < |g.leafs| && g.leafs[i] == t;
      LeafIsListed(p, g, |g.leafs|, |g.nodes|, i);
    } else {
      var i, j := SlotWitness(g, t, 0, 0);
      NodeIsListed(p, g, |g.nodes|, i, j);
    }
  }

  lemma {:induction false} LeafIsListed(p: PlanRecord, g: Graph, leafs: nat, nodes: nat, i: nat)
    requires SlotsInOrder(g) && i < leafs <= |g.leafs| == |p.leafAllocs| && nodes <= |g.nodes| == |p.nodeAllocs|
    ensures Listed(p.Met(g, leafs, nodes), g.leafs[i])
    decreases leafs + nodes
  {
    if nodes > 0 {
      LeafIsListed(p, g, leafs, nodes - 1, i);
      ListedInLonger(p.Met(g, leafs, nodes - 1), p.MetSources(g, nodes - 1, |Src(g, nodes - 1)|), g.leafs[i]);
      ListedInLonger(p.Met(g, leafs, nodes - 1) + p.MetSources(g, nodes - 1, |Src(g, nodes - 1)|),
                     [Entry(g.nodes[nodes - 1], p.nodeAllocs[nodes - 1].dst)], g.leafs[i]);
    } else if i < leafs - 1 {
      LeafIsListed(p, g, leafs - 1, 0, i);
      ListedInLonger(p.Met(g, leafs - 1, 0), [Entry(g.leafs[leafs - 1], p.leafAllocs[leafs - 1])], g.leafs[i]);
    } else {
      assert Listed([Entry(g.leafs[i], p.leafAllocs[i])], g.leafs[i]) by {
        assert [Entry(g.leafs[i], p.leafAllocs[i])][0].t == g.leafs[i];
      }
      ListedInLonger(p.Met(g, leafs - 1, 0), [Entry(g.leafs[i], p.leafAllocs[i])], g.leafs[i]);
    }
  }

  /** Source `j` of node `i`, or the node itself. */
  function SourceOrNode(g: Graph, i: nat, j: nat): nat
    requires i < |g.nodes| && j <= |Src(g, i)|
  {
    if j < |Src(g, i)| then Src(g, i)[j] else g.nodes[i]
  }

  lemma {:induction false} NodeIsListed(p: PlanRecord, g: Graph, nodes: nat, i: nat, j: nat)
    requires SlotsInOrder(g) && i < nodes <= |g.nodes| == |p.nodeAllocs| && |g.leafs| == |p.leafAllocs|
    requires j <= |Src(g, i)|
    ensures Listed(p.Met(g, |g.leafs|, nodes), SourceOrNode(g, i, j))
  {
    var t, n := SourceOrNode(g, i, j), nodes - 1;
    var before, sources := p.Met(g, |g.leafs|, n), p.MetSources(g, n, |Src(g, n)|);
    var last := [Entry(g.nodes[n], p.nodeAllocs[n].dst)];
    if i < n {
      NodeIsListed(p, g, n, i, j);
    } else if j < |Src(g, i)| {
      SourceIsListed(p, g, i, |Src(g, i)|, j);
    } else {
      assert last[0].t == t;
    }
    if i < n || j < |Src(g, i)| { ListedInLonger(before, sources, t); }
    ListedInLonger(before + sources, last, t);
  }

  lemma {:induction false} SourceIsListed(p: PlanRecord, g: Graph, i: nat, n: nat, j: nat)
    requires SlotsInOrder(g) && i < |g.nodes| == |p.nodeAllocs| && j < n <= |Src(g, i)|
    ensures Listed(p.MetSources(g, i, n), Src(g, i)[j])
  {
    var last := [Entry(Src(g, i)[n - 1], p.nodeAllocs[i].src[SlotOf(g, i, n - 1)])];
    if j < n - 1 { SourceIsListed(p, g, i, n - 1, j); } else { assert last[0].t == Src(g, i)[j]; }
    ListedInLonger(p.MetSources(g, i, n - 1), last, Src(g, i)[j]);
  }

  /** A graph of the recorded shape gets exactly the recorded plan. */
  lemma HandsOutThePlan(p: PlanRecord, first: Graph, g: Graph, plan: Plan, places: seq<Option<Place>>)
    requires p.Records(first, plan) && SameShape(first, g) && SlotsInOrder(g)
    requires Assigned(g, p.Met(g, |g.leafs|, |g.nodes|), places)
    ensures forall t: nat :: Placed(g, t, |g.nodes|) ==> t < |places| && places[t] == Some(plan[t])
  {
    var list := p.Met(g, |g.leafs|, |g.nodes|);
    p.MetIsPlanned(first, g, plan, |g.leafs|, |g.nodes|);
    forall t: nat | Placed(g, t, |g.nodes|) ensures t < |places| && places[t] == Some(plan[t]) {
      PlacedIsListed(p, g, t);
      assert TakesFirst(list, t, places[t]);
      var k :| 0 <= k < |list| && list[k].t == t;
      assert PlannedEntry(g, plan, list[k]);
    }
  }

  /** A tensor with the record that is offered to it. */
  datatype Entry = Entry(t: nat, alloc: TensorAlloc)

  /** The entry offers an owned tensor its planned place, and other tensors none. */
  ghost predicate PlannedEntry(g: Graph, plan: Plan, x: Entry) {
    x.t < |g.tensors| && x.t < |plan| && x.alloc.place == if Owned(g, x.t) then Some(plan[x.t]) else None
  }

  ghost predicate RecordsNode(g: Graph, plan: Plan, i: nat, a: NodeAlloc)
    requires SlotsInOrder(g) && i < |g.nodes| && |plan| == |g.tensors|
  {
    && a.dst == AllocOf(g, plan, g.nodes[i])
    && (forall j :: 0 <= j < |Src(g, i)| ==> a.src[SlotOf(g, i, j)] == AllocOf(g, plan, Src(g, i)[j]))
    && (forall m :: 0 <= m < MAX_SRC && m !in g.tensors[g.nodes[i]].slots ==> a.src[m] == NO_ALLOC)
  }

  /** `p` is the first place that the list offers `t`. */
  ghost predicate TakesFirst(list: seq<Entry>, t: nat, p: Option<Place>) {
    if p.None? then forall k :: 0 <= k < |list| && list[k].t == t ==> list[k].alloc.place.None?
    else
      exists k :: 0 <= k < |list| && Offers(list[k], t, p) && Refused(list, t, k)
  }

  /** No entry for `t` before `k` has a place. */
  ghost predicate Refused(list: seq<Entry>, t: nat, k: nat)
    requires k <= |list|
  {
    forall m :: 0 <= m < k && list[m].t == t ==> list[m].alloc.place.None?
  }

  ghost predicate Offers(x: Entry, t: nat, p: Option<Place>) {
    x.t == t && x.alloc.place == p
  }

  lemma OneMoreEntry(list: seq<Entry>, t: nat, p: Option<Place>, x: Entry)
    requires TakesFirst(list, t, p)
    ensures TakesFirst(list + [x], t, if p.None? && x.t == t then x.alloc.place else p)
  {
    var longer := list + [x];
    if p.Some? {
      var k :| 0 <= k < |list| && Offers(list[k], t, p) && Refused(list, t, k);
      assert Offers(longer[k], t, p);
      forall m | 0 <= m < k && longer[m].t == t ensures longer[m].alloc.place.None? { assert longer[m] == list[m]; }
    } else if x.t == t && x.alloc.place.Some? {
      assert Offers(longer[|list|], t, x.alloc.place);
    }
  }

  ghost predicate Assigned(g: Graph, list: seq<Entry>, places: seq<Option<Place>>) {
    && |places| == |g.tensors|
    && forall t :: 0 <= t < |places| ==> if Owned(g, t) then TakesFirst(list, t, places[t]) else places[t] == None
  }

  method InitTensor(g: Graph, t: nat, a: TensorAlloc, places: array<Option<Place>>, ghost list: seq<Entry>)
    requires t < |g.tensors| == places.Length && Assigned(g, list, places[..])
    modifies places
    ensures Assigned(g, list + [Entry(t, a)], places[..])
  {
    ghost var before := places[..];
    if !IsView(g, t) && !g.tensors[t].external {
      if places[t] == None {
        places[t] := a.place;
      }
    }
    forall u | 0 <= u < places.Length && Owned(g, u) ensures TakesFirst(list + [Entry(t, a)], u, places[u]) {
      OneMoreEntry(list, u, before[u], Entry(t, a));
    }
  }

  // ---- which graphs a plan may be used for

  /** Everything agrees but the operations' ability to work in place, layouts and sizes. */
  ghost predicate SameShape(g: Graph, h: Graph) {
    && |g.tensors| == |h.tensors| && g.nodes == h.nodes && g.leafs == h.leafs
    && forall t :: 0 <= t < |g.tensors| ==>
         && g.tensors[t].src == h.tensors[t].src && g.tensors[t].slots == h.tensors[t].slots
         && g.tensors[t].viewSrc == h.tensors[t].viewSrc
         && g.tensors[t].isNone == h.tensors[t].isNone && g.tensors[t].input == h.tensors[t].input
         && g.tensors[t].output == h.tensors[t].output && g.tensors[t].external == h.tensors[t].external
  }

  ghost predicate NoLarger(g: Graph, h: Graph, plan: Plan)
    requires |plan| == |g.tensors| == |h.tensors|
  {
    forall t :: 0 <= t < |plan| && Placed(g, t, |g.nodes|) ==> Size(h, t, plan[t].buffer) <= Size(g, t, plan[t].buffer)
  }

  lemma {:induction false} SameLeft(g: Graph, h: Graph, t: nat, i: nat, j: nat)
    requires SameShape(g, h)
    ensures Left(g, t, i, j) == Left(h, t, i, j)
    decreases |g.nodes| - i, if i < |g.nodes| then |Src(g, i)| - j else 0
  {
    if i < |g.nodes| {
      if j >= |Src(g, i)| { SameLeft(g, h, t, i + 1, 0); } else { SameLeft(g, h, t, i, j + 1); }
    }
  }

  lemma {:induction false} SameViews(g: Graph, h: Graph, r: nat, k: nat)
    requires SameShape(g, h) && k <= |g.nodes|
    ensures ViewsBelow(g, r, k) == ViewsBelow(h, r, k)
  {
    if k > 0 { SameViews(g, h, r, k - 1); }
  }

  lemma SameLifetimes(g: Graph, h: Graph, r: nat, i: int)
    requires SameShape(g, h)
    ensures Placed(g, r, if i < 0 then 0 else i) == Placed(h, r, if i < 0 then 0 else i)
    ensures NeededAfter(g, r, i) == NeededAfter(h, r, i)
  {
    SameLeft(g, h, r, 0, 0);
    SameViews(g, h, r, |g.nodes|);
    forall k: nat | k < |g.nodes| ensures Uses(g, k, r) == Uses(h, k, r) && UnreadView(g, k, r) == UnreadView(h, k, r) {
      SameLeft(g, h, g.nodes[k], 0, 0);
      assert Src(g, k) == Src(h, k);
      assert forall j :: 0 <= j < |Src(g, k)| ==> Root(g, Src(g, k)[j]) == Root(h, Src(h, k)[j]);
    }
  }

  /** A node that the plan puts where one of its sources is still works in place on operands of one
      layout. */
  ghost predicate KeepsInPlace(h: Graph, plan: Plan)
    requires |plan| == |h.tensors|
  {
    forall i, j :: 0 <= i < |h.nodes| && 0 <= j < |Src(h, i)| && Writes(h, i) ==> SlotKeepsInPlace(h, plan, i, j)
  }

  ghost predicate SlotKeepsInPlace(h: Graph, plan: Plan, i: nat, j: nat)
    requires i < |h.nodes| && j < |Src(h, i)| && |plan| == |h.tensors|
  {
    var t, s := h.nodes[i], Src(h, i)[j];
    var w, r := Root(h, t), Root(h, s);
    Owned(h, w) && Owned(h, r) && w != r && SharesPlace(h, plan, w, r) ==>
      h.tensors[t].canInplace && h.tensors[t].layout == h.tensors[s].layout
  }

  /** Both start at one address, and neither is empty. */
  ghost predicate SharesPlace(h: Graph, plan: Plan, w: nat, r: nat)
    requires w < |h.tensors| && r < |h.tensors| && |plan| == |h.tensors|
  {
    plan[w] == plan[r] && Size(h, w, plan[w].buffer) > 0 && Size(h, r, plan[r].buffer) > 0
  }

  /** A plan for one graph serves a graph of the same shape whose tensors are no larger exactly if the
      nodes that were put where one of their sources is may be computed there. */
  lemma ReplayIsSound(g: Graph, h: Graph, plan: Plan)
    requires WellFormed(g) && WellFormed(h) && SameShape(g, h) && |plan| == |g.tensors| && NoLarger(g, h, plan)
    requires NonInterfering(g, plan) && InitialApart(g, plan)
    ensures InitialApart(h, plan)
    ensures NonInterfering(h, plan) <==> KeepsInPlace(h, plan)
    ensures RunsLikePrivate(h, plan) <==> KeepsInPlace(h, plan)
  {
    forall r: nat, w: nat | Placed(h, r, 0) && Placed(h, w, 0) && r != w ensures TensorsApart(h, plan, r, w) {
      SameLifetimes(g, h, r, 0);
      SameLifetimes(g, h, w, 0);
      PlacedGrows(g, r, 0, |g.nodes|);
      PlacedGrows(g, w, 0, |g.nodes|);
      assert TensorsApart(g, plan, r, w);
    }
    if KeepsInPlace(h, plan) {
      forall i | 0 <= i < |h.nodes| && Writes(h, i) ensures NodeHarmless(h, plan, i) {
        assert NodeHarmless(g, plan, i);
        NodeStaysHarmless(g, h, plan, i);
        OperandsStaySafe(g, h, plan, i);
      }
      NonInterferingRunsLikePrivate(h, plan);
    } else {
      var i, j :| 0 <= i < |h.nodes| && 0 <= j < |Src(h, i)| && Writes(h, i) && !SlotKeepsInPlace(h, plan, i, j);
      OperandIsTorn(h, plan, i, j);
    }
  }

  lemma OperandIsTorn(h: Graph, plan: Plan, i: nat, j: nat)
    requires WellFormed(h) && |plan| == |h.tensors| && InitialApart(h, plan)
    requires i < |h.nodes| && j < |Src(h, i)| && Writes(h, i) && !SlotKeepsInPlace(h, plan, i, j)
    ensures !RunsLikePrivate(h, plan) && !NonInterfering(h, plan)
  {
    assert !OperandSafe(h, plan, i, j);
    TornOperandShows(h, plan, i);
    assert !NodeHarmless(h, plan, i);
  }

  lemma NodeStaysHarmless(g: Graph, h: Graph, plan: Plan, i: nat)
    requires WellFormed(g) && SameShape(g, h) && |plan| == |g.tensors| && NoLarger(g, h, plan)
    requires i < |g.nodes| && Writes(g, i) && LaterSafe(g, plan, i)
    ensures LaterSafe(h, plan, i)
  {
    var w := Root(g, g.nodes[i]);
    if Owned(h, w) {
      WriterIsPlaced(g, i);
      PlacedGrows(g, w, i + 1, |g.nodes|);
      forall r: nat | Placed(h, r, i + 1) && NeededAfter(h, r, i) && r != w ensures TensorsApart(h, plan, r, w) {
        SameLifetimes(g, h, r, i);
        SameLifetimes(g, h, r, i + 1);
        PlacedGrows(g, r, i + 1, |g.nodes|);
        assert TensorsApart(g, plan, r, w);
      }
    }
  }

  lemma OperandsStaySafe(g: Graph, h: Graph, plan: Plan, i: nat)
    requires WellFormed(g) && SameShape(g, h) && |plan| == |g.tensors| && NoLarger(g, h, plan) && KeepsInPlace(h, plan)
    requires i < |g.nodes| && Writes(g, i) && OperandsSafe(g, plan, i)
    ensures OperandsSafe(h, plan, i)
  {
    forall j | 0 <= j < |Src(h, i)| ensures OperandSafe(h, plan, i, j) {
      var w, r := Root(g, g.nodes[i]), Root(g, Src(g, i)[j]);
      assert OperandSafe(g, plan, i, j) && SlotKeepsInPlace(h, plan, i, j);
      if Owned(g, w) && Owned(g, r) {
        WriterIsPlaced(g, i);
        PlacedGrows(g, w, i + 1, |g.nodes|);
        SourceMatters(g, i, j);
        PlacedGrows(g, r, i, |g.nodes|);
      }
    }
  }

  /** What acceptance says about sizes: it covers nodes and sources, but not a leaf that no node
      reads. */
  lemma AcceptedIsNoLarger(p: PlanRecord, g: Graph, h: Graph, plan: Plan)
    requires p.Records(g, plan) && SameShape(g, h)
    requires SlotsInOrder(h) && p.Usable(h)
    requires forall t ::
        t in h.leafs && Owned(h, t) && Slots(h, t) == 0 ==> Size(h, t, plan[t].buffer) <= Size(g, t, plan[t].buffer)
    ensures NoLarger(g, h, plan)
  {
    forall t | 0 <= t < |plan| && Placed(g, t, |g.nodes|)
      ensures Size(h, t, plan[t].buffer) <= Size(g, t, plan[t].buffer)
    {
      SameLeft(g, h, t, 0, 0);
      if t in g.nodes {
        var i :| 0 <= i < |g.nodes| && g.nodes[i] == t;
        assert p.NodeFits(h, i) && RecordsNode(g, plan, i, p.nodeAllocs[i]);
      } else if Slots(g, t) > 0 {
        var i, j := SlotWitness(g, t, 0, 0);
        assert p.NodeFits(h, i) && RecordsNode(g, plan, i, p.nodeAllocs[i]);
        assert SlotOf(h, i, j) == SlotOf(g, i, j);
        assert Accepts(h, Src(h, i)[j], p.nodeAllocs[i].src[SlotOf(h, i, j)]);
      }
    }
  }

  // ---- the buffers behind the plan

  /** The chunk sizes of a buffer after planning: the current ones if they suffice, otherwise exactly
      the planned ones. */
  method SizeBuffer(current: Option<seq<nat>>, vs: seq<View>) returns (sizes: seq<nat>)
    ensures ChunksSuffice(sizes, vs)
    ensures current.Some? && ChunksSuffice(current.value, vs) ==> sizes == current.value
    ensures current.None? || !ChunksSuffice(current.value, vs) ==>
              |sizes| == |vs| && forall c :: 0 <= c < |vs| ==> sizes[c] == vs[c].maxSize
  {
    var realloc := current.None?;
    var c := 0;
    while c < |vs|
      invariant c <= |vs|
      invariant !realloc <==> current.Some? && forall d :: 0 <= d < c ==> vs[d].maxSize <= ChunkSize(current.value, d)
    {
      var curChunkSize := if current.Some? then ChunkSize(current.value, c) else 0;
      if vs[c].maxSize > curChunkSize { realloc := true; }
      c := c + 1;
    }
    if !realloc { return current.value; }
    sizes := seq(|vs|, d requires 0 <= d < |vs| => vs[d].maxSize);
  }

  function ChunkSize(sizes: seq<nat>, c: nat): nat {
    if c < |sizes| then sizes[c] else 0
  }

  predicate ChunksSuffice(sizes: seq<nat>, vs: seq<View>) {
    forall c :: 0 <= c < |vs| ==> vs[c].maxSize <= ChunkSize(sizes, c)
  }

  /** The place ends inside its chunk of the buffer. */
  ghost predicate FitsBuffer(h: Graph, t: nat, p: Place, sizes: seq<seq<nat>>)
    requires t < |h.tensors|
  {
    p.buffer < |sizes| && p.addr.offset + Size(h, t, p.buffer) <= ChunkSize(sizes[p.buffer], p.addr.chunk)
  }

  /** Every tensor that is no larger than the tensor of the plan whose place it gets ends inside its
      backend buffer. */
  lemma PlacementsFit(g: Graph, h: Graph, al: Buffers, s: PState, sizes: seq<seq<nat>>, t: nat, u: nat)
    requires InBounds(g, al, s, |g.nodes|) && Placed(g, u, |g.nodes|) && t < |h.tensors|
    requires |sizes| == |al| && forall b :: 0 <= b < |al| ==> ChunksSuffice(sizes[b], s.views[b])
    requires Size(h, t, PlanOf(s.hn)[u].buffer) <= Size(g, u, PlanOf(s.hn)[u].buffer)
    ensures FitsBuffer(h, t, PlanOf(s.hn)[u], sizes)
  {
    assert TensorInBounds(g, al, s, u);
    assert PlanOf(s.hn)[u] == PlaceOf(s.hn[u]);
  }

  // ---- graphs of another shape

  /** An entry of the record says where some placed tensor of the plan is, or nothing. */
  ghost predicate Recorded(first: Graph, plan: Plan, a: TensorAlloc)
    requires |plan| == |first.tensors|
  {
    a == NO_ALLOC || exists u: nat :: Placed(first, u, |first.nodes|) && a == AllocOf(first, plan, u)
  }

  lemma TensorIsRecorded(first: Graph, plan: Plan, u: nat)
    requires u < |first.tensors| == |plan| && (Owned(first, u) ==> Placed(first, u, |first.nodes|))
    ensures Recorded(first, plan, AllocOf(first, plan, u))
  {
  }

  lemma NodeIsRecorded(first: Graph, plan: Plan, i: nat, a: NodeAlloc, m: nat)
    requires WellFormed(first) && SlotsInOrder(first) && |plan| == |first.tensors| && i < |first.nodes| && m < MAX_SRC
    requires RecordsNode(first, plan, i, a)
    ensures Recorded(first, plan, a.dst) && Recorded(first, plan, a.src[m])
  {
    var t := first.nodes[i];
    assert NodeBefore(first, t, |first.nodes|);
    TensorIsRecorded(first, plan, t);
    if m in first.tensors[t].slots {
      assert InOrder(first.tensors[t].slots, |Src(first, i)|);
      var j :| 0 <= j < |first.tensors[t].slots| && first.tensors[t].slots[j] == m;
      assert SlotOf(first, i, j) == m;
      assert NodeWellFormed(first, i) && SourceWellFormed(first, Src(first, i)[j], i);
      if Owned(first, Src(first, i)[j]) { PlacedGrows(first, Src(first, i)[j], i, |first.nodes|); }
      TensorIsRecorded(first, plan, Src(first, i)[j]);
    }
  }

  /** Tensor `t` got the place of a tensor of the plan that is at least as large. */
  ghost predicate Backed(first: Graph, plan: Plan, h: Graph, t: nat, p: Option<Place>)
    requires |plan| == |first.tensors| && t < |h.tensors|
  {
    && p.Some?
    && exists u: nat :: Placed(first, u, |first.nodes|) && p.value == plan[u]
                        && Size(h, t, plan[u].buffer) <= Size(first, u, plan[u].buffer)
  }

  /** Whatever is met is offered a place that was recorded and that it fits. */
  ghost predicate FairEntry(first: Graph, plan: Plan, h: Graph, x: Entry)
    requires |plan| == |first.tensors|
  {
    x.t < |h.tensors| && Recorded(first, plan, x.alloc) && Accepts(h, x.t, x.alloc)
  }

  lemma {:induction false} MetIsFair(p: PlanRecord, first: Graph, plan: Plan, h: Graph, leafs: nat, nodes: nat)
    requires WellFormed(first) && p.Records(first, plan) && SlotsInOrder(h) && p.Usable(h) && p.LeafsFit(h)
    requires leafs <= |h.leafs| && nodes <= |h.nodes|
    ensures forall k :: 0 <= k < |p.Met(h, leafs, nodes)| ==> FairEntry(first, plan, h, p.Met(h, leafs, nodes)[k])
    decreases leafs + nodes
  {
    if nodes > 0 {
      MetIsFair(p, first, plan, h, leafs, nodes - 1);
      MetSourcesAreFair(p, first, plan, h, nodes - 1, |Src(h, nodes - 1)|);
      assert p.NodeFits(h, nodes - 1) && RecordsNode(first, plan, nodes - 1, p.nodeAllocs[nodes - 1]);
      NodeIsRecorded(first, plan, nodes - 1, p.nodeAllocs[nodes - 1], 0);
    } else if leafs > 0 {
      MetIsFair(p, first, plan, h, leafs - 1, 0);
      var u := first.leafs[leafs - 1];
      assert Initial(first, u);
      TensorIsRecorded(first, plan, u);
    }
  }

  lemma {:induction false} MetSourcesAreFair(p: PlanRecord, first: Graph, plan: Plan, h: Graph, i: nat, j: nat)
    requires WellFormed(first) && p.Records(first, plan) && SlotsInOrder(h) && p.Usable(h)
    requires i < |h.nodes| && j <= |Src(h, i)|
    ensures forall k :: 0 <= k < |p.MetSources(h, i, j)| ==> FairEntry(first, plan, h, p.MetSources(h, i, j)[k])
  {
    if j > 0 {
      MetSourcesAreFair(p, first, plan, h, i, j - 1);
      assert p.NodeFits(h, i) && RecordsNode(first, plan, i, p.nodeAllocs[i]);
      NodeIsRecorded(first, plan, i, p.nodeAllocs[i], SlotOf(h, i, j - 1));
    }
  }

  lemma HandedOutIsBacked(p: PlanRecord, first: Graph, plan: Plan, h: Graph, places: seq<Option<Place>>, t: nat)
    requires WellFormed(first) && p.Records(first, plan) && SlotsInOrder(h) && p.Usable(h) && p.LeafsFit(h)
    requires Assigned(h, p.Met(h, |h.leafs|, |h.nodes|), places) && Placed(h, t, |h.nodes|)
    ensures Backed(first, plan, h, t, places[t])
  {
    var list := p.Met(h, |h.leafs|, |h.nodes|);
    MetIsFair(p, first, plan, h, |h.leafs|, |h.nodes|);
    PlacedIsListed(p, h, t);
    forall k | 0 <= k < |list| && list[k].t == t ensures list[k].alloc.place.Some? {
      assert FairEntry(first, plan, h, list[k]);
    }
    assert TakesFirst(list, t, places[t]);
    var k :| 0 <= k < |list| && Offers(list[k], t, places[t]);
    assert FairEntry(first, plan, h, list[k]);
  }

  /** Every tensor that needs memory got a place. */
  ghost predicate AllHandedOut(h: Graph, places: seq<Option<Place>>) {
    |places| == |h.tensors| && forall t: nat :: Placed(h, t, |h.nodes|) ==> places[t].Some?
  }

  /** The places as a plan. */
  function PlanHandedOut(places: seq<Option<Place>>): (plan: Plan) {
    seq(|places|, t requires 0 <= t < |places| => if places[t].Some? then places[t].value else Place(0, Addr(0, 0)))
  }

  /** Every tensor that needs memory got a place, and in these places the graph runs right. */
  ghost predicate ServesHandedOut(h: Graph, places: seq<Option<Place>>) {
    AllHandedOut(h, places) && Serves(h, PlanHandedOut(places))
  }

  /** From one reservation to every accepted graph, of whatever shape: what it is handed out makes it
      run as it would with private storage, for all inputs, exactly if its inputs do not overlap there
      and no node writes over what is still to be read; and if its leafs, too, fit where the record
      puts them, every tensor gets a place inside the reserved buffers. */
  lemma AcceptedGraphsRunSafely(p: PlanRecord, g: Graph, h: Graph, al: Buffers, s: PState, sizes: seq<seq<nat>>,
                                places: seq<Option<Place>>)
    requires WellFormed(g) && InBounds(g, al, s, |g.nodes|) && p.Records(g, PlanOf(s.hn))
    requires |sizes| == |al| && forall b :: 0 <= b < |al| ==> ChunksSuffice(sizes[b], s.views[b])
    requires WellFormed(h) && LeafsApart(h) && SlotsInOrder(h) && p.Usable(h)
    requires Assigned(h, p.Met(h, |h.leafs|, |h.nodes|), places)
    ensures ServesHandedOut(h, places) <==>
            AllHandedOut(h, places) && InitialApart(h, PlanHandedOut(places))
                && NonInterfering(h, PlanHandedOut(places))
    ensures p.LeafsFit(h) ==> AllHandedOut(h, places)
    ensures p.LeafsFit(h) ==>
              forall t: nat :: Placed(h, t, |h.nodes|) ==> FitsBuffer(h, t, PlanHandedOut(places)[t], sizes)
  {
    var plan := PlanOf(s.hn);
    ServesIffNonInterfering(h, PlanHandedOut(places));
    if p.LeafsFit(h) {
      forall t: nat | Placed(h, t, |h.nodes|)
        ensures places[t].Some? && FitsBuffer(h, t, PlanHandedOut(places)[t], sizes)
      {
        HandedOutIsBacked(p, g, plan, h, places, t);
        var u: nat :| Placed(g, u, |g.nodes|) && places[t].value == plan[u]
                      && Size(h, t, plan[u].buffer) <= Size(g, u, plan[u].buffer);
        PlacementsFit(g, h, al, s, sizes, t, u);
      }
    }
  }

  /** If moreover the shape has not changed, this comes down to the nodes that were put where one of
      their sources is: they must still be able to be computed there. */
  lemma AcceptedShapesRunSafely(p: PlanRecord, g: Graph, h: Graph, plan: Plan)
    requires WellFormed(g) && WellFormed(h) && SameShape(g, h) && p.Records(g, plan)
    requires NonInterfering(g, plan) && InitialApart(g, plan) && SlotsInOrder(h) && p.Usable(h)
    requires forall t ::
        t in h.leafs && Owned(h, t) && Slots(h, t) == 0 ==> Size(h, t, plan[t].buffer) <= Size(g, t, plan[t].buffer)
    ensures Serves(h, plan) <==> KeepsInPlace(h, plan)
  {
    AcceptedIsNoLarger(p, g, h, plan);
    ReplayIsSound(g, h, plan);
    LoadableIffApart(h, plan);
  }
}
