// The assembler's graph: nodes, the edges between their input slots, and fans of DUP nodes.
module IrGraph {
  import opened Words
  import opened Types

  // OUTD and OUTS are places, not instructions.
  datatype NodeOp = Op(op: Opcode) | OUTD | OUTS

  datatype Arg = NoArg | Literal(n: Data) | Ref(name: string)

  // An edge ends at an input slot of a node.
  datatype Dest = Dest(node: nat, input: bv32)

  datatype Node = Node(op: NodeOp, in1: Arg, in2: Arg, d1: Option<Dest>, d2: Option<Dest>, optimizable: bool)

  // The assembler counts both inputs of MER.
  function Inputs(op: NodeOp): nat {
    if op.Op? then (if op.op.MER? then 2 else NumInputs(op.op)) else 1
  }

  const DUP_NODE: Node := Node(Op(DUP), NoArg, NoArg, None, None, true)

  // ---- Attaching one more use to a node ----

  // Parent p gets one more use. If both its outputs are taken, a new DUP takes over the second.
  function Attached(nodes: seq<Node>, p: nat, use: Dest): (r: seq<Node>)
    requires p < |nodes|
    ensures |nodes| <= |r| <= |nodes| + 1
  {
    var n := nodes[p];
    if n.d1.None? then nodes[p := n.(d1 := Some(use))]
    else if n.d2.None? then nodes[p := n.(d2 := Some(use))]
    else nodes[p := n.(d2 := Some(Dest(|nodes|, INPUT_ONE)))] + [DUP_NODE.(d1 := n.d2, d2 := Some(use))]
  }

  // Where the next use goes.
  function EndAfter(nodes: seq<Node>, p: nat): nat
    requires p < |nodes|
  {
    if nodes[p].d1.Some? && nodes[p].d2.Some? then |nodes| else p
  }

  // ---- Fans ----

  // A definition and the DUPs behind it, and the uses they feed, in order.
  datatype Fan = Fan(chain: seq<nat>, uses: seq<Dest>)

  function LinkTo(chain: seq<nat>, k: nat): Option<Dest> {
    if k < |chain| then Some(Dest(chain[k], INPUT_ONE)) else None
  }

  function UseAt(uses: seq<Dest>, k: nat): Option<Dest> {
    if k < |uses| then Some(uses[k]) else None
  }

  // The outputs of the k-th node of a fan: one use and the next DUP; the last has up to two uses.
  ghost predicate FanLink(nodes: seq<Node>, f: Fan, k: nat) {
    && k < |f.chain| && f.chain[k] < |nodes|
    && nodes[f.chain[k]].d1 == UseAt(f.uses, k)
    && nodes[f.chain[k]].d2 == if k + 1 < |f.chain| then LinkTo(f.chain, k + 1) else UseAt(f.uses, k + 1)
  }

  ghost predicate FanOk(nodes: seq<Node>, f: Fan) {
    && |f.chain| == (if |f.uses| < 2 then 1 else |f.uses| - 1)
    && (forall j, k :: 0 <= j < k < |f.chain| ==> f.chain[j] < f.chain[k])
    && forall k :: 0 <= k < |f.chain| ==> FanLink(nodes, f, k)
  }

  function Extend(f: Fan, use: Dest, n: nat): Fan {
    Fan(if |f.uses| < 2 then f.chain else f.chain + [n], f.uses + [use])
  }

  function Last(f: Fan): nat
    requires |f.chain| > 0
  {
    f.chain[|f.chain| - 1]
  }

  lemma FanExtends(nodes: seq<Node>, f: Fan, use: Dest)
    requires FanOk(nodes, f)
    ensures Last(f) < |nodes|
    ensures nodes[Last(f)].d1.Some? && nodes[Last(f)].d2.Some? <==> |f.uses| >= 2
    ensures FanOk(Attached(nodes, Last(f), use), Extend(f, use, |nodes|))
    ensures Last(Extend(f, use, |nodes|)) == EndAfter(nodes, Last(f))
  {
    var g, last := Extend(f, use, |nodes|), |f.chain| - 1;
    assert FanLink(nodes, f, last);
    var after := Attached(nodes, Last(f), use);
    forall k | 0 <= k < |g.chain|
      ensures FanLink(after, g, k)
    {
      if k < last { assert FanLink(nodes, f, k) && f.chain[k] < f.chain[last]; }
    }
    forall j, k | 0 <= j < k < |g.chain|
      ensures g.chain[j] < g.chain[k]
    {
      if k == |f.chain| { assert FanLink(nodes, f, j); }
    }
  }

  lemma FanKept(nodes: seq<Node>, f: Fan, p: nat, use: Dest)
    requires FanOk(nodes, f) && p < |nodes| && p !in f.chain
    ensures FanOk(Attached(nodes, p, use), f)
  {
    forall k | 0 <= k < |f.chain|
      ensures FanLink(Attached(nodes, p, use), f, k)
    {
      assert FanLink(nodes, f, k) && f.chain[k] in f.chain;
    }
  }

  // ---- What a definition feeds ----

  // The slots reached from node i through inserted DUPs, which are the nodes from `base` on.
  function Feeds(nodes: seq<Node>, base: nat, i: nat): seq<Dest>
    requires i < |nodes|
    decreases |nodes| - i
  {
    Through(nodes, base, i, nodes[i].d1) + Through(nodes, base, i, nodes[i].d2)
  }

  function Through(nodes: seq<Node>, base: nat, i: nat, d: Option<Dest>): seq<Dest>
    requires i < |nodes|
    decreases |nodes| - i, 0
  {
    if d.None? then []
    else if base <= d.value.node < |nodes| && i < d.value.node then Feeds(nodes, base, d.value.node)
    else [d.value]
  }

  // The uses of a fan are slots of the original nodes, its DUPs are not.
  ghost predicate FanOver(f: Fan, base: nat) {
    && (forall k :: 0 < k < |f.chain| ==> f.chain[k] >= base)
    && (forall k :: 0 <= k < |f.uses| ==> f.uses[k].node < base)
  }

  lemma {:induction false} FanFeedsFrom(nodes: seq<Node>, base: nat, f: Fan, k: nat)
    requires FanOk(nodes, f) && FanOver(f, base) && k < |f.chain|
    ensures f.chain[k] < |nodes| && k <= |f.uses| && Feeds(nodes, base, f.chain[k]) == f.uses[k..]
    decreases |f.chain| - k
  {
    assert FanLink(nodes, f, k);
    var i := f.chain[k];
    if k + 1 < |f.chain| {
      FanFeedsFrom(nodes, base, f, k + 1);
      assert f.chain[k] < f.chain[k + 1] && f.chain[k + 1] >= base;
      assert f.uses[k..] == [f.uses[k]] + f.uses[k + 1..];
    } else if k + 1 < |f.uses| {
      assert f.uses[k..] == [f.uses[k]] + [f.uses[k + 1]];
    } else if k < |f.uses| {
      assert f.uses[k..] == [f.uses[k]];
    }
  }

  // A fan feeds exactly its uses, each once and in order.
  lemma FanFeeds(nodes: seq<Node>, base: nat, f: Fan)
    requires FanOk(nodes, f) && FanOver(f, base)
    ensures f.chain[0] < |nodes| && Feeds(nodes, base, f.chain[0]) == f.uses
  {
    FanFeedsFrom(nodes, base, f, 0);
    assert f.uses[0..] == f.uses;
  }

  // ---- The DUPs the assembler adds by itself ----

  predicate IsDup(n: Node) {
    n.op == Op(DUP) && n.optimizable
  }

  predicate IsInput(i: bv32) { i == INPUT_ONE || i == INPUT_TWO }

  // An edge to a node that does more than pass tokens on.
  predicate Solid(nodes: seq<Node>, d: Dest) {
    d.node < |nodes| && IsInput(d.input) && !IsDup(nodes[d.node])
  }

  // Chains of added DUPs only lead onwards.
  predicate Onward(nodes: seq<Node>, n: nat, d: Option<Dest>)
    requires n < |nodes|
  {
    d.Some? ==> d.value.node < |nodes| && IsInput(d.value.input) && (IsDup(nodes[n]) && IsDup(nodes[d.value.node]) ==> n < d.value.node)
  }

  ghost predicate Tidy(nodes: seq<Node>) {
    forall n :: 0 <= n < |nodes| ==> Onward(nodes, n, nodes[n].d1) && Onward(nodes, n, nodes[n].d2)
  }

  lemma FirstInput()
    ensures IsInput(INPUT_ONE)
  {
  }

  // The edges after attaching: the old ones, the new use, and the link to a new DUP.
  lemma AttachedEdges(nodes: seq<Node>, p: nat, use: Dest)
    requires p < |nodes|
    ensures var r := Attached(nodes, p, use);
      && (forall n :: 0 <= n < |nodes| ==> r[n].op == nodes[n].op && r[n].optimizable == nodes[n].optimizable)
      && (forall n :: 0 <= n < |nodes| && n != p ==> r[n] == nodes[n])
      && (|r| > |nodes| ==> nodes[p].d1.Some? && nodes[p].d2.Some? && r[|nodes|] == DUP_NODE.(d1 := nodes[p].d2, d2 := Some(use)))
      && (r[p].d1 == nodes[p].d1 || r[p].d1 == Some(use))
      && (r[p].d2 == nodes[p].d2 || r[p].d2 == Some(use) || (|r| > |nodes| && r[p].d2 == Some(Dest(|nodes|, INPUT_ONE))))
  {
  }

  lemma AttachedTidy(nodes: seq<Node>, p: nat, use: Dest)
    requires Tidy(nodes) && p < |nodes| && Solid(nodes, use)
    requires nodes[p].d1.Some? && nodes[p].d2.Some? ==> Solid(nodes, nodes[p].d2.value)
    ensures Tidy(Attached(nodes, p, use))
    ensures forall d :: Solid(nodes, d) ==> Solid(Attached(nodes, p, use), d)
  {
    hide IsInput, Attached;
    AttachedEdges(nodes, p, use);
    var r := Attached(nodes, p, use);
    assert IsInput(INPUT_ONE) by { FirstInput(); }
    forall n | 0 <= n < |r|
      ensures Onward(r, n, r[n].d1) && Onward(r, n, r[n].d2)
    {
      if n < |nodes| { assert Onward(nodes, n, nodes[n].d1) && Onward(nodes, n, nodes[n].d2); }
    }
  }
}
