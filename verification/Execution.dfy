/** Running a graph on flat, shared memory against running it with private storage per tensor. */
module Executions {
  import opened Wrappers
  import opened DynTallocrs
  import opened Graphs

  /** Where a tensor is put. */
  datatype Place = Place(buffer: nat, addr: Addr)

  /** One place for each tensor of the graph. */
  type Plan = seq<Place>

  function Size(g: Graph, t: nat, buffer: nat): nat
    requires t < |g.tensors|
  {
    if buffer < |g.tensors[t].size| then g.tensors[t].size[buffer] else 0
  }

  ghost predicate Apart(p: Place, n: nat, q: Place, m: nat) {
    n == 0 || m == 0 || p.buffer != q.buffer || p.addr.chunk != q.addr.chunk
    || p.addr.offset + n <= q.addr.offset || q.addr.offset + m <= p.addr.offset
  }

  ghost predicate TensorsApart(g: Graph, plan: Plan, r: nat, w: nat)
    requires r < |g.tensors| && w < |g.tensors| && |plan| == |g.tensors|
  {
    Apart(plan[r], Size(g, r, plan[r].buffer), plan[w], Size(g, w, plan[w].buffer))
  }

  /** Running node `i` changes the contents of its root: inputs are filled in beforehand, and a view
      without an operation only holds its root alive. */
  predicate Writes(g: Graph, i: nat)
    requires i < |g.nodes|
  {
    var t := g.nodes[i];
    if IsView(g, t) then !g.tensors[t].isNone else !g.tensors[t].input
  }

  /** `t` may be computed where its source `s` is: the operation works in place, and both are laid out
      alike and start at the same address. */
  ghost predicate InPlace(g: Graph, plan: Plan, t: nat, s: nat)
    requires t < |g.tensors| && s < |g.tensors| && |plan| == |g.tensors|
  {
    && g.tensors[t].canInplace && !IsView(g, t) && !IsView(g, s)
    && g.tensors[t].layout == g.tensors[s].layout && plan[t] == plan[s]
  }

  /** What node `i` writes leaves its operand in slot `j` readable while it runs: the operand is other
      memory, or what the node is a view of, or it is written over in place. */
  ghost predicate OperandSafe(g: Graph, plan: Plan, i: nat, j: nat)
    requires i < |g.nodes| && j < |Src(g, i)| && |plan| == |g.tensors|
  {
    var w, r := Root(g, g.nodes[i]), Root(g, Src(g, i)[j]);
    Owned(g, w) && Owned(g, r) && r != w ==> TensorsApart(g, plan, r, w) || InPlace(g, plan, g.nodes[i], Src(g, i)[j])
  }

  ghost predicate OperandsSafe(g: Graph, plan: Plan, i: nat)
    requires i < |g.nodes| && |plan| == |g.tensors|
  {
    forall j :: 0 <= j < |Src(g, i)| ==> OperandSafe(g, plan, i, j)
  }

  /** Node `i` shares no byte with a tensor whose contents matter after it. */
  ghost predicate LaterSafe(g: Graph, plan: Plan, i: nat)
    requires i < |g.nodes| && |plan| == |g.tensors|
  {
    var w := Root(g, g.nodes[i]);
    Owned(g, w) ==>
        forall r: nat :: Placed(g, r, i + 1) && NeededAfter(g, r, i) && r != w ==> TensorsApart(g, plan, r, w)
  }

  /** Node `i` writes over nothing that is still to be read, by itself or by anybody later. */
  ghost predicate NodeHarmless(g: Graph, plan: Plan, i: nat)
    requires i < |g.nodes| && |plan| == |g.tensors|
  {
    OperandsSafe(g, plan, i) && LaterSafe(g, plan, i)
  }

  ghost predicate NonInterfering(g: Graph, plan: Plan) {
    |plan| == |g.tensors| && forall i :: 0 <= i < |g.nodes| && Writes(g, i) ==> NodeHarmless(g, plan, i)
  }

  /** Tensors that are filled in before the run do not overlap. */
  ghost predicate InitialApart(g: Graph, plan: Plan) {
    |plan| == |g.tensors| && forall r: nat, w: nat ::
        Placed(g, r, 0) && Placed(g, w, 0) && r != w ==> TensorsApart(g, plan, r, w)
  }

  lemma PlacedGrows(g: Graph, t: nat, i: nat, k: nat)
    requires Placed(g, t, i) && i <= k
    ensures Placed(g, t, k)
  {
    if NodeBefore(g, t, i) { assert NodeBefore(g, t, k); }
  }

  /** The root written by node `i` is placed once node `i` is. */
  lemma WriterIsPlaced(g: Graph, i: nat)
    requires WellFormed(g) && i < |g.nodes| && Writes(g, i) && Owned(g, Root(g, g.nodes[i]))
    ensures Placed(g, Root(g, g.nodes[i]), i + 1)
    ensures IsView(g, g.nodes[i]) ==> Placed(g, Root(g, g.nodes[i]), i)
  {
    assert NodeWellFormed(g, i);
    if IsView(g, g.nodes[i]) { PlacedGrows(g, Root(g, g.nodes[i]), i, i + 1); }
    else { assert NodeBefore(g, g.nodes[i], i + 1); }
  }

  // ---- the two ways of running a graph

  type Byte = bv8

  datatype Loc = Loc(buffer: nat, chunk: nat, offset: nat)

  /** The meaning of the operations: `op` gives the new contents of a node's root, from the old
      contents if the node is a view and from the contents of its sources' roots; `torn` is what a
      node leaves behind that writes over an operand it has not finished reading. */
  datatype Ops = Ops(op: (nat, Option<seq<Byte>>, seq<seq<Byte>>) -> seq<Byte>, torn: nat -> seq<Byte>)

  ghost predicate FitsPlan(g: Graph, plan: Plan, ops: Ops) {
    && |plan| == |g.tensors|
    && forall i, old_, args :: 0 <= i < |g.nodes| && Owned(g, Root(g, g.nodes[i])) ==>
         && |ops.op(i, old_, args)| == Size(g, Root(g, g.nodes[i]), plan[Root(g, g.nodes[i])].buffer)
         && |ops.torn(i)| == Size(g, Root(g, g.nodes[i]), plan[Root(g, g.nodes[i])].buffer)
  }

  /** Private storage: contents by root. */
  type Contents = nat -> seq<Byte>

  /** Flat storage: planned buffers, and memory that was assigned before planning. */
  datatype Store = Store(mem: Loc -> Byte, ext: nat -> seq<Byte>)

  function Cell(p: Place, k: nat): Loc {
    Loc(p.buffer, p.addr.chunk, p.addr.offset + k)
  }

  function Read(g: Graph, plan: Plan, s: Store, r: nat): seq<Byte>
    requires r < |g.tensors| && |plan| == |g.tensors|
  {
    if g.tensors[r].external then s.ext(r)
    else seq(Size(g, r, plan[r].buffer), k requires 0 <= k => s.mem(Cell(plan[r], k)))
  }

  predicate Covered(p: Place, n: nat, l: Loc) {
    l.buffer == p.buffer && l.chunk == p.addr.chunk && p.addr.offset <= l.offset < p.addr.offset + n
  }

  function Write(g: Graph, plan: Plan, s: Store, r: nat, v: seq<Byte>): Store
    requires r < |g.tensors| && |plan| == |g.tensors|
  {
    if g.tensors[r].external then s.(ext := (x: nat) => if x == r then v else s.ext(x))
    else s.(mem := (l: Loc) => if Covered(plan[r], |v|, l) then v[l.offset - plan[r].addr.offset] else s.mem(l))
  }

  function Inputs(g: Graph, i: nat, c: Contents): seq<seq<Byte>>
    requires i < |g.nodes|
  {
    seq(|Src(g, i)|, j requires 0 <= j < |Src(g, i)| => c(Root(g, Src(g, i)[j])))
  }

  /** Contents of the flat store, tensor by tensor. */
  function Seen(g: Graph, plan: Plan, s: Store): Contents
    requires |plan| == |g.tensors|
  {
    (r: nat) => if r < |g.tensors| then Read(g, plan, s, r) else []
  }

  function Result(g: Graph, ops: Ops, i: nat, c: Contents): seq<Byte>
    requires i < |g.nodes|
  {
    var t := g.nodes[i];
    ops.op(i, if IsView(g, t) then Some(c(Root(g, t))) else None, Inputs(g, i, c))
  }

  ghost function FlatResult(g: Graph, plan: Plan, ops: Ops, i: nat, s: Store): seq<Byte>
    requires i < |g.nodes| && |plan| == |g.tensors|
  {
    if OperandsSafe(g, plan, i) then Result(g, ops, i, Seen(g, plan, s)) else ops.torn(i)
  }

  /** Private storage after the first `i` nodes. */
  function RunPrivate(g: Graph, ops: Ops, init: Contents, i: nat): Contents
    requires i <= |g.nodes|
  {
    if i == 0 then init
    else
      var c := RunPrivate(g, ops, init, i - 1);
      if Writes(g, i - 1) then (x: nat) => if x == Root(g, g.nodes[i - 1]) then Result(g, ops, i - 1, c) else c(x)
      else c
  }

  /** Flat storage after the first `i` nodes. */
  ghost function RunFlat(g: Graph, plan: Plan, ops: Ops, s: Store, i: nat): Store
    requires i <= |g.nodes| && |plan| == |g.tensors|
  {
    if i == 0 then s
    else
      var f := RunFlat(g, plan, ops, s, i - 1);
      if Writes(g, i - 1) then Write(g, plan, f, Root(g, g.nodes[i - 1]), FlatResult(g, plan, ops, i - 1, f))
      else f
  }

  // ---- reads and writes

  lemma CellWritten(g: Graph, plan: Plan, s: Store, r: nat, v: seq<Byte>, k: nat)
    requires r < |g.tensors| && |plan| == |g.tensors| && !g.tensors[r].external && k < |v|
    ensures Write(g, plan, s, r, v).mem(Cell(plan[r], k)) == v[k]
  {
    assert Covered(plan[r], |v|, Cell(plan[r], k));
  }

  lemma ReadOwnWrite(g: Graph, plan: Plan, s: Store, r: nat, v: seq<Byte>)
    requires r < |g.tensors| && |plan| == |g.tensors|
    requires !g.tensors[r].external ==> |v| == Size(g, r, plan[r].buffer)
    ensures Read(g, plan, Write(g, plan, s, r, v), r) == v
  {
    if !g.tensors[r].external {
      var s' := Write(g, plan, s, r, v);
      forall k: nat | k < |v| ensures Read(g, plan, s', r)[k] == v[k] {
        CellWritten(g, plan, s, r, v, k);
        assert Read(g, plan, s', r)[k] == s'.mem(Cell(plan[r], k));
      }
    }
  }

  lemma ReadPastWrite(g: Graph, plan: Plan, s: Store, r: nat, w: nat, v: seq<Byte>)
    requires r < |g.tensors| && w < |g.tensors| && |plan| == |g.tensors| && r != w
    requires !g.tensors[w].external ==> |v| == Size(g, w, plan[w].buffer)
    requires !g.tensors[r].external && !g.tensors[w].external ==> TensorsApart(g, plan, r, w)
    ensures Read(g, plan, Write(g, plan, s, w, v), r) == Read(g, plan, s, r)
  {
    if !g.tensors[r].external {
      var s' := Write(g, plan, s, w, v);
      forall k: nat | k < Size(g, r, plan[r].buffer) ensures Read(g, plan, s', r)[k] == Read(g, plan, s, r)[k] {
        assert Read(g, plan, s', r)[k] == s'.mem(Cell(plan[r], k));
        assert Read(g, plan, s, r)[k] == s.mem(Cell(plan[r], k));
      }
    }
  }

  // ---- soundness of a non-interfering plan

  /** The roots whose contents matter once the first `i` nodes have run. */
  ghost predicate Matters(g: Graph, r: nat, i: nat) {
    r < |g.tensors| && !IsView(g, r) && (g.tensors[r].external || (Placed(g, r, i) && NeededAfter(g, r, i as int - 1)))
  }

  ghost predicate Agree(g: Graph, plan: Plan, s: Store, c: Contents, i: nat)
    requires |plan| == |g.tensors|
  {
    forall r: nat :: Matters(g, r, i) ==> Read(g, plan, s, r) == c(r)
  }

  lemma SourceMatters(g: Graph, i: nat, j: nat)
    requires WellFormed(g) && i < |g.nodes| && j < |Src(g, i)|
    ensures Matters(g, Root(g, Src(g, i)[j]), i)
  {
    var s := Src(g, i)[j];
    assert NodeWellFormed(g, i) && SourceWellFormed(g, s, i);
    assert Uses(g, i, Root(g, s));
    if IsView(g, s) && !g.tensors[Root(g, s)].external {
      var k :| 0 <= k < i && k < |g.nodes| && g.nodes[k] == s;
      assert NodeWellFormed(g, k);
      assert Placed(g, Root(g, s), i);
    }
  }

  lemma SameResult(g: Graph, plan: Plan, ops: Ops, s: Store, c: Contents, i: nat)
    requires WellFormed(g) && i < |g.nodes| && |plan| == |g.tensors| && Agree(g, plan, s, c, i)
    ensures Writes(g, i) ==> Result(g, ops, i, Seen(g, plan, s)) == Result(g, ops, i, c)
    ensures forall j :: 0 <= j < |Src(g, i)| ==> Read(g, plan, s, Root(g, Src(g, i)[j])) == c(Root(g, Src(g, i)[j]))
  {
    forall j | 0 <= j < |Src(g, i)|
      ensures Read(g, plan, s, Root(g, Src(g, i)[j])) == c(Root(g, Src(g, i)[j]))
    {
      SourceMatters(g, i, j);
    }
    assert Inputs(g, i, Seen(g, plan, s)) == Inputs(g, i, c);
    var t := g.nodes[i];
    if IsView(g, t) && Writes(g, i) {
      assert NodeWellFormed(g, i) && Uses(g, i, Root(g, t));
      assert Matters(g, Root(g, t), i);
    }
  }

  lemma StepAgrees(g: Graph, plan: Plan, ops: Ops, s0: Store, init: Contents, i: nat)
    requires WellFormed(g) && i < |g.nodes| && NonInterfering(g, plan) && FitsPlan(g, plan, ops)
    requires Agree(g, plan, RunFlat(g, plan, ops, s0, i), RunPrivate(g, ops, init, i), i)
    ensures Agree(g, plan, RunFlat(g, plan, ops, s0, i + 1), RunPrivate(g, ops, init, i + 1), i + 1)
    ensures Writes(g, i) ==> Read(g, plan, RunFlat(g, plan, ops, s0, i + 1), Root(g, g.nodes[i]))
                             == RunPrivate(g, ops, init, i + 1)(Root(g, g.nodes[i]))
  {
    var s, c := RunFlat(g, plan, ops, s0, i), RunPrivate(g, ops, init, i);
    var s', c' := RunFlat(g, plan, ops, s0, i + 1), RunPrivate(g, ops, init, i + 1);
    var w := Root(g, g.nodes[i]);
    if Writes(g, i) {
      SameResult(g, plan, ops, s, c, i);
      assert NodeHarmless(g, plan, i);
      var v := Result(g, ops, i, c);
      ReadOwnWrite(g, plan, s, w, v);
      forall r: nat | Matters(g, r, i + 1) && r != w ensures Read(g, plan, s', r) == c'(r) {
        assert Matters(g, r, i);
        assert NodeHarmless(g, plan, i);
        ReadPastWrite(g, plan, s, r, w, v);
      }
    } else {
      forall r: nat | Matters(g, r, i + 1) ensures Read(g, plan, s', r) == c'(r) {
        assert Matters(g, r, i) by {
          if r == g.nodes[i] { assert Initial(g, r); }
        }
      }
    }
  }

  lemma {:induction false} RunsAgree(g: Graph, plan: Plan, ops: Ops, s0: Store, init: Contents, i: nat)
    requires WellFormed(g) && i <= |g.nodes| && NonInterfering(g, plan) && FitsPlan(g, plan, ops)
    requires Agree(g, plan, s0, init, 0)
    ensures Agree(g, plan, RunFlat(g, plan, ops, s0, i), RunPrivate(g, ops, init, i), i)
  {
    if i > 0 {
      RunsAgree(g, plan, ops, s0, init, i - 1);
      StepAgrees(g, plan, ops, s0, init, i - 1);
    }
  }

  /** Store `s` starts out with the given contents wherever something is there before the run. */
  ghost predicate Loaded(g: Graph, plan: Plan, s: Store, init: Contents)
    requires |plan| == |g.tensors|
  {
    forall r: nat ::
        r < |g.tensors| && !IsView(g, r) && (g.tensors[r].external || Placed(g, r, 0)) ==>
        Read(g, plan, s, r) == init(r)
  }

  /** Every node finds in flat memory the source values it would find in private storage. */
  ghost predicate SameSources(g: Graph, plan: Plan, ops: Ops, s: Store, init: Contents, i: nat)
    requires i < |g.nodes| && |plan| == |g.tensors|
  {
    forall j :: 0 <= j < |Src(g, i)| ==>
      Read(g, plan, RunFlat(g, plan, ops, s, i), Root(g, Src(g, i)[j]))
          == RunPrivate(g, ops, init, i)(Root(g, Src(g, i)[j]))
  }

  /** Every node that writes leaves in its root what it would leave there. */
  ghost predicate SameOutcome(g: Graph, plan: Plan, ops: Ops, s: Store, init: Contents, i: nat)
    requires i < |g.nodes| && |plan| == |g.tensors|
  {
    Read(g, plan, RunFlat(g, plan, ops, s, i + 1), Root(g, g.nodes[i]))
        == RunPrivate(g, ops, init, i + 1)(Root(g, g.nodes[i]))
  }

  /** At the end the persistent tensors, and the external ones, have their private values. */
  ghost predicate SameEnd(g: Graph, plan: Plan, ops: Ops, s: Store, init: Contents)
    requires |plan| == |g.tensors|
  {
    forall r: nat ::
        r < |g.tensors| && !IsView(g, r) && (g.tensors[r].external || (Placed(g, r, |g.nodes|) && Persistent(g, r))) ==>
      Read(g, plan, RunFlat(g, plan, ops, s, |g.nodes|), r) == RunPrivate(g, ops, init, |g.nodes|)(r)
  }

  /** Flat memory behaves like private storage, whatever the operations and the inputs are. */
  ghost predicate RunsLikePrivate(g: Graph, plan: Plan) {
    |plan| == |g.tensors| &&
    forall ops, s, init :: FitsPlan(g, plan, ops) && Loaded(g, plan, s, init) ==>
      && (forall i ::
          0 <= i < |g.nodes| ==>
          SameSources(g, plan, ops, s, init, i) && (Writes(g, i) ==> SameOutcome(g, plan, ops, s, init, i)))
      && SameEnd(g, plan, ops, s, init)
  }

  /** Main theorem: a non-interfering plan makes flat memory behave like private storage. */
  lemma NonInterferingRunsLikePrivate(g: Graph, plan: Plan)
    requires WellFormed(g) && NonInterfering(g, plan)
    ensures RunsLikePrivate(g, plan)
  {
    forall ops, s, init | FitsPlan(g, plan, ops) && Loaded(g, plan, s, init)
      ensures forall i ::
          0 <= i < |g.nodes| ==>
          SameSources(g, plan, ops, s, init, i) && (Writes(g, i) ==> SameOutcome(g, plan, ops, s, init, i))
      ensures SameEnd(g, plan, ops, s, init)
    {
      assert Agree(g, plan, s, init, 0);
      forall i | 0 <= i < |g.nodes|
        ensures SameSources(g, plan, ops, s, init, i) && (Writes(g, i) ==> SameOutcome(g, plan, ops, s, init, i))
      {
        RunsAgree(g, plan, ops, s, init, i);
        StepAgrees(g, plan, ops, s, init, i);
        SameResult(g, plan, ops, RunFlat(g, plan, ops, s, i), RunPrivate(g, ops, init, i), i);
      }
      RunsAgree(g, plan, ops, s, init, |g.nodes|);
      EndAgrees(g, plan, ops, s, init);
    }
  }

  /** Source `j` of node `i` has the right value in planned memory. */
  lemma SourceIsRight(g: Graph, plan: Plan, ops: Ops, s: Store, init: Contents, i: nat, j: nat)
    requires WellFormed(g) && NonInterfering(g, plan) && FitsPlan(g, plan, ops) && Loaded(g, plan, s, init)
    requires i < |g.nodes| && j < |Src(g, i)|
    ensures var w := Root(g, Src(g, i)[j]);
            Read(g, plan, RunFlat(g, plan, ops, s, i), w) == RunPrivate(g, ops, init, i)(w)
  {
    assert Agree(g, plan, s, init, 0);
    RunsAgree(g, plan, ops, s, init, i);
    SameResult(g, plan, ops, RunFlat(g, plan, ops, s, i), RunPrivate(g, ops, init, i), i);
  }

  lemma EndAgrees(g: Graph, plan: Plan, ops: Ops, s: Store, init: Contents)
    requires |plan| == |g.tensors|
    requires Agree(g, plan, RunFlat(g, plan, ops, s, |g.nodes|), RunPrivate(g, ops, init, |g.nodes|), |g.nodes|)
    ensures SameEnd(g, plan, ops, s, init)
  {
    forall r: nat | r < |g.tensors| && !IsView(g, r)
        && (g.tensors[r].external || (Placed(g, r, |g.nodes|) && Persistent(g, r)))
      ensures Read(g, plan, RunFlat(g, plan, ops, s, |g.nodes|), r) == RunPrivate(g, ops, init, |g.nodes|)(r)
    {
      assert Matters(g, r, |g.nodes|);
    }
  }

  // ---- inputs can be loaded

  /** Something is there before the run. */
  ghost predicate Fillable(g: Graph, r: nat) {
    r < |g.tensors| && !IsView(g, r) && (g.tensors[r].external || Placed(g, r, 0))
  }

  /** Filling the initial tensors below `n` one after the other. */
  ghost function Load(g: Graph, plan: Plan, s: Store, init: Contents, n: nat): Store
    requires n <= |g.tensors| == |plan|
  {
    if n == 0 then s
    else
      var f := Load(g, plan, s, init, n - 1);
      if Fillable(g, n - 1) then Write(g, plan, f, n - 1, init(n - 1)) else f
  }

  /** The contents chosen for the initial tensors have the right sizes. */
  ghost predicate InitFits(g: Graph, plan: Plan, init: Contents)
    requires |plan| == |g.tensors|
  {
    forall r: nat :: Fillable(g, r) && !g.tensors[r].external ==> |init(r)| == Size(g, r, plan[r].buffer)
  }

  /** Inputs do not disturb each other, so every choice of input values can be set up. */
  lemma {:induction false} LoadingWorks(g: Graph, plan: Plan, s: Store, init: Contents, n: nat)
    requires n <= |g.tensors| && InitialApart(g, plan) && InitFits(g, plan, init)
    ensures forall r: nat :: r < n && Fillable(g, r) ==> Read(g, plan, Load(g, plan, s, init, n), r) == init(r)
    ensures n == |g.tensors| ==> Loaded(g, plan, Load(g, plan, s, init, n), init)
  {
    if n > 0 {
      LoadingWorks(g, plan, s, init, n - 1);
      var f, w := Load(g, plan, s, init, n - 1), n - 1;
      if Fillable(g, w) {
        ReadOwnWrite(g, plan, f, w, init(w));
        forall r: nat | r < w && Fillable(g, r) ensures Read(g, plan, Load(g, plan, s, init, n), r) == init(r) {
          ReadPastWrite(g, plan, f, r, w, init(w));
        }
      }
    }
  }

  lemma LoadedStore(g: Graph, plan: Plan, init: Contents) returns (s: Store)
    requires InitialApart(g, plan) && InitFits(g, plan, init)
    ensures Loaded(g, plan, s, init)
  {
    s := Load(g, plan, Store(l => 0, r => []), init, |g.tensors|);
    LoadingWorks(g, plan, Store(l => 0, r => []), init, |g.tensors|);
  }

  // ---- a node that overwrites its operands

  function Bytes(n: nat, b: Byte): seq<Byte> {
    seq(n, _ => b)
  }

  function RootSize(g: Graph, plan: Plan, i: nat): nat
    requires |plan| == |g.tensors|
  {
    if i < |g.nodes| then Size(g, Root(g, g.nodes[i]), plan[Root(g, g.nodes[i])].buffer) else 0
  }

  function InitSize(g: Graph, plan: Plan, r: nat): nat
    requires |plan| == |g.tensors|
  {
    if r < |g.tensors| then Size(g, r, plan[r].buffer) else 0
  }

  /** Every operation leaves zeros, and ones when it is torn. */
  function Marking(g: Graph, plan: Plan): (ops: Ops)
    requires |plan| == |g.tensors|
  {
    Ops((k: nat, o: Option<seq<Byte>>, a: seq<seq<Byte>>) => Bytes(RootSize(g, plan, k), 0),
        (k: nat) => Bytes(RootSize(g, plan, k), 1))
  }

  /** Zeros everywhere. */
  function Zeros(g: Graph, plan: Plan): Contents
    requires |plan| == |g.tensors|
  {
    (r: nat) => Bytes(InitSize(g, plan, r), 0)
  }

  lemma TornMarks(g: Graph, plan: Plan, s: Store, init: Contents, i: nat)
    requires |plan| == |g.tensors| && i < |g.nodes| && Writes(g, i) && !OperandsSafe(g, plan, i)
    ensures !SameOutcome(g, plan, Marking(g, plan), s, init, i)
  {
    var w, ops := Root(g, g.nodes[i]), Marking(g, plan);
    ReadOwnWrite(g, plan, RunFlat(g, plan, ops, s, i), w, ops.torn(i));
    assert Read(g, plan, RunFlat(g, plan, ops, s, i + 1), w)[0] == 1;
    assert RunPrivate(g, ops, init, i + 1)(w)[0] == 0;
  }

  /** If a node writes over an operand that it may not write over, the result can be seen to be wrong. */
  lemma TornOperandShows(g: Graph, plan: Plan, i: nat)
    requires InitialApart(g, plan) && i < |g.nodes| && Writes(g, i) && !OperandsSafe(g, plan, i)
    ensures !RunsLikePrivate(g, plan)
  {
    var init := Zeros(g, plan);
    var s := LoadedStore(g, plan, init);
    assert FitsPlan(g, plan, Marking(g, plan));
    TornMarks(g, plan, s, init, i);
  }
}
