// From rows of assembly to the optimized graph: every definition reaches exactly its uses.
module Wiring {
  import opened Words
  import opened Types
  import opened IrGraph
  import opened FanOut
  import opened Parser
  import opened Optimize

  // ---- Fans seen as paths through DUPs ----

  // The nodes behind the definition are added DUPs.
  ghost predicate ChainOfDups(nodes: seq<Node>, f: Fan) {
    forall k :: 0 < k < |f.chain| ==> f.chain[k] < |nodes| && IsDup(nodes[f.chain[k]])
  }

  // What the two outputs of node i reach.
  function BothReach(nodes: seq<Node>, i: nat): seq<Dest>
    requires i < |nodes|
  {
    Reached(nodes, nodes[i].d1) + Reached(nodes, nodes[i].d2)
  }

  lemma DupReach(nodes: seq<Node>, d: Dest)
    requires Tidy(nodes) && d.node < |nodes| && IsDup(nodes[d.node])
    ensures Leaves(nodes, d) == BothReach(nodes, d.node)
  {
    var k := d.node;
    assert Onward(nodes, k, nodes[k].d1) && Onward(nodes, k, nodes[k].d2);
    OnwardsReached(nodes, k, nodes[k].d1);
    OnwardsReached(nodes, k, nodes[k].d2);
  }

  lemma SolidReach(nodes: seq<Node>, d: Dest)
    requires Solid(nodes, d)
    ensures Leaves(nodes, d) == [d]
  {
  }

  lemma {:induction false} FanReachesFrom(nodes: seq<Node>, f: Fan, k: nat)
    requires Tidy(nodes) && FanOk(nodes, f) && UsesSolid(nodes, f) && ChainOfDups(nodes, f) && k < |f.chain|
    ensures f.chain[k] < |nodes| && k <= |f.uses| && BothReach(nodes, f.chain[k]) == f.uses[k..]
    decreases |f.chain| - k
  {
    hide Solid, IsDup, Leaves;
    assert FanLink(nodes, f, k);
    if k < |f.uses| { SolidReach(nodes, f.uses[k]); }
    if k + 1 < |f.chain| {
      FanReachesFrom(nodes, f, k + 1);
      DupReach(nodes, Dest(f.chain[k + 1], INPUT_ONE));
      assert f.uses[k..] == [f.uses[k]] + f.uses[k + 1..];
    } else if k + 1 < |f.uses| {
      SolidReach(nodes, f.uses[k + 1]);
      assert f.uses[k..] == [f.uses[k]] + [f.uses[k + 1]];
    } else if k < |f.uses| {
      assert f.uses[k..] == [f.uses[k]];
    }
  }

  // The outputs of a definition reach its uses, each once and in order.
  lemma FanReaches(nodes: seq<Node>, f: Fan)
    requires Tidy(nodes) && FanOk(nodes, f) && UsesSolid(nodes, f) && ChainOfDups(nodes, f)
    ensures f.chain[0] < |nodes| && BothReach(nodes, f.chain[0]) == f.uses
  {
    FanReachesFrom(nodes, f, 0);
    assert f.uses[0..] == f.uses;
  }

  lemma AddedAreDups(nodes: seq<Node>, was: seq<Node>, labels: set<string>, f: Fan)
    requires FixedUpTo(nodes, was, labels, |was|) && FanOk(nodes, f) && FanOver(f, |was|)
    ensures ChainOfDups(nodes, f)
  {
    hide Fixed;
    forall k | 0 < k < |f.chain|
      ensures f.chain[k] < |nodes| && IsDup(nodes[f.chain[k]])
    {
      assert FanLink(nodes, f, k);
      var i := f.chain[k];
      assert nodes[i] == DUP_NODE.(d1 := nodes[i].d1, d2 := nodes[i].d2);
    }
  }

  // ---- Both passes together ----

  // Definition j of x reaches its share of the uses of x.
  ghost predicate Wired(nodes: seq<Node>, t: Table, x: string, j: nat) {
    && x in t.owner.defs && j < |t.owner.defs[x]| && t.owner.defs[x][j] < |nodes|
    && BothReach(nodes, t.owner.defs[x][j]) == Share(UsesOf(t.nodes, t.labels.Keys, x, |t.nodes|), j, |t.owner.defs[x]|)
  }

  lemma HookedIsWired(a: Assembler, t: Table, x: string, j: nat)
    requires a.Hooked() && a.base == |t.nodes| && a.defs == t.owner.defs && a.labels == t.labels.Keys
    requires FixedUpTo(a.nodes, t.nodes, a.labels, |t.nodes|) && UsesAre(a.uses, t.nodes, a.labels, |t.nodes|)
    requires x in a.defs && j < |a.defs[x]|
    ensures Wired(a.nodes, t, x, j)
  {
    hide FanOk, FanOver, UsesSolid, Tidy, FixedUpTo;
    var f := a.fans[x][j];
    assert FanGood(a.nodes, f, a.owner, a.base, x, j);
    assert VariableOk(a.variables, a.fans, a.uses, x);
    AddedAreDups(a.nodes, t.nodes, a.labels, f);
    FanReaches(a.nodes, f);
  }

  lemma StillWired(a: seq<Node>, b: seq<Node>, t: Table, x: string, j: nat)
    requires Wired(a, t, x, j) && SameReach(a, b)
    ensures Wired(b, t, x, j)
  {
    hide Reached, Share, UsesOf;
    assert SameOutputs(a, b, t.owner.defs[x][j]);
  }

  ghost predicate AllWired(nodes: seq<Node>, t: Table) {
    forall x, j :: x in t.owner.defs && 0 <= j < |t.owner.defs[x]| ==> Wired(nodes, t, x, j)
  }

  // ---- What stays of the parsed nodes ----

  // Up to edges, the parsed nodes with their inputs fixed up, and DUPs behind them.
  ghost predicate SameNodes(nodes: seq<Node>, t: Table) {
    && |t.nodes| <= |nodes|
    && (forall k :: 0 <= k < |t.nodes| ==>
          nodes[k] == Fixed(t.nodes[k], t.labels.Keys).(d1 := nodes[k].d1, d2 := nodes[k].d2))
    && forall k :: |t.nodes| <= k < |nodes| ==> nodes[k] == DUP_NODE.(d1 := nodes[k].d1, d2 := nodes[k].d2)
  }

  // Output e led to definition j of x, one of the two DUPs of a row with two outputs: it reaches
  // the share of that definition.
  ghost predicate PassedOn(nodes: seq<Node>, t: Table, e: Option<Dest>, x: string, j: nat)
    requires x in t.owner.defs && j < |t.owner.defs[x]|
  {
    Reached(nodes, e) == Share(UsesOf(t.nodes, t.labels.Keys, x, |t.nodes|), j, |t.owner.defs[x]|)
  }

  ghost predicate LedTo(t: Table, e: Option<Dest>, x: string, j: nat)
    requires x in t.owner.defs && j < |t.owner.defs[x]|
  {
    e.Some? && e.value.node == t.owner.defs[x][j] && e.value.node < |t.nodes| && IsDup(t.nodes[e.value.node])
  }

  ghost predicate SplitsWired(nodes: seq<Node>, t: Table) {
    forall n, x, j :: 0 <= n < |t.nodes| <= |nodes| && x in t.owner.defs && 0 <= j < |t.owner.defs[x]| ==>
      && (LedTo(t, t.nodes[n].d1, x, j) ==> PassedOn(nodes, t, nodes[n].d1, x, j))
      && (LedTo(t, t.nodes[n].d2, x, j) ==> PassedOn(nodes, t, nodes[n].d2, x, j))
  }

  lemma HookedSplits(nodes: seq<Node>, t: Table)
    requires FixedUpTo(nodes, t.nodes, t.labels.Keys, |t.nodes|) && Tidy(nodes) && AllWired(nodes, t)
    ensures SplitsWired(nodes, t)
  {
    hide FixedUpTo, Tidy, Share, UsesOf, Fixed;
    forall n, x, j | 0 <= n < |t.nodes| <= |nodes| && x in t.owner.defs && 0 <= j < |t.owner.defs[x]|
      ensures LedTo(t, t.nodes[n].d1, x, j) ==> PassedOn(nodes, t, nodes[n].d1, x, j)
      ensures LedTo(t, t.nodes[n].d2, x, j) ==> PassedOn(nodes, t, nodes[n].d2, x, j)
    {
      assert Wired(nodes, t, x, j);
      if LedTo(t, t.nodes[n].d1, x, j) {
        DupOutputKept(nodes, t, n, t.nodes[n].d1.value);
        DupReach(nodes, t.nodes[n].d1.value);
      }
      if LedTo(t, t.nodes[n].d2, x, j) {
        DupOutputKept(nodes, t, n, t.nodes[n].d2.value);
        DupReach(nodes, t.nodes[n].d2.value);
      }
    }
  }

  lemma DupOutputKept(nodes: seq<Node>, t: Table, n: nat, d: Dest)
    requires FixedUpTo(nodes, t.nodes, t.labels.Keys, |t.nodes|) && n < |t.nodes|
    requires d.node < |t.nodes| && IsDup(t.nodes[d.node])
    ensures d.node < |nodes| && IsDup(nodes[d.node]) && n < |nodes|
    ensures t.nodes[n].d1 == Some(d) ==> nodes[n].d1 == Some(d)
    ensures t.nodes[n].d2 == Some(d) ==> nodes[n].d2 == Some(d)
  {
    assert KeepsOutputs(t.nodes, t.nodes[n], nodes[n]);
  }

  lemma StillSplits(a: seq<Node>, b: seq<Node>, t: Table)
    requires SplitsWired(a, t) && SameReach(a, b)
    ensures SplitsWired(b, t)
  {
    hide Reached, Share, UsesOf, LedTo;
    forall n, x, j | 0 <= n < |t.nodes| <= |b| && x in t.owner.defs && 0 <= j < |t.owner.defs[x]|
      ensures LedTo(t, t.nodes[n].d1, x, j) ==> PassedOn(b, t, b[n].d1, x, j)
      ensures LedTo(t, t.nodes[n].d2, x, j) ==> PassedOn(b, t, b[n].d2, x, j)
    {
      assert SameOutputs(a, b, n);
    }
  }

  lemma StillSameNodes(a: seq<Node>, b: seq<Node>, t: Table)
    requires FixedUpTo(a, t.nodes, t.labels.Keys, |t.nodes|) && SameReach(a, b)
    ensures SameNodes(b, t)
  {
    hide Reached, Fixed, KeepsOutputs;
    forall k | 0 <= k < |a|
      ensures b[k] == a[k].(d1 := b[k].d1, d2 := b[k].d2)
    {
      assert SameOutputs(a, b, k);
    }
  }

  // What is left to be placed: every parsed node that is no DUP of the assembler, each node once.
  ghost predicate LeftOk(t: Table, nodes: seq<Node>, left: seq<nat>) {
    && Distinct(left) && (forall n :: n in left ==> n < |nodes|)
    && (forall n :: 0 <= n < |t.nodes| && !IsDup(t.nodes[n]) ==> n in left)
    && (t.nodes != [] && !IsDup(t.nodes[0]) ==> left != [] && left[0] == 0)
  }

  lemma LeftFrom(t: Table, nodes: seq<Node>, live: seq<nat>, left: seq<nat>)
    requires live == seq(|nodes|, i => i) && OnlyDupsGone(nodes, live, left)
    requires FixedUpTo(nodes, t.nodes, t.labels.Keys, |t.nodes|)
    ensures LeftOk(t, nodes, left)
  {
    hide KeepsOutputs, EdgesTo, Cleared, Inputs;
    forall n: nat | n < |t.nodes|
      ensures IsDup(nodes[n]) == IsDup(t.nodes[n]) && live[n] == n
    {
      assert nodes[n] == Fixed(t.nodes[n], t.labels.Keys).(d1 := nodes[n].d1, d2 := nodes[n].d2);
    }
    forall n | 0 <= n < |t.nodes| && !IsDup(t.nodes[n]) ensures n in left { assert live[n] in live; }
  }

  // ---- Where edges end ----

  // d is an input that names a variable.
  predicate NamedSlot(t: Table, d: Dest) {
    d.node < |t.nodes| && Named((if d.input == INPUT_ONE then t.nodes[d.node].in1 else t.nodes[d.node].in2), t.labels.Keys).Some?
  }

  // Every edge to a node that is no DUP of the assembler ends at such an input.
  ghost predicate EdgesNamed(nodes: seq<Node>, t: Table) {
    forall e :: IsEdge(nodes, e) && Solid(nodes, e) ==> NamedSlot(t, e)
  }

  lemma HookedEdges(a: Assembler, t: Table)
    requires a.Hooked() && a.labels == t.labels.Keys && UsesAre(a.uses, t.nodes, a.labels, |t.nodes|)
    ensures EdgesNamed(a.nodes, t)
  {
    hide FansOk, VariablesOk, Named, Slots, Solid, UsesAre;
    forall e | IsEdge(a.nodes, e) && Solid(a.nodes, e)
      ensures NamedSlot(t, e)
    {
      var n :| 0 <= n < |a.nodes| && HasEdge(a.nodes[n], e);
      assert EdgeIn(a.nodes, Slots(a.uses), a.nodes[n].d1) && EdgeIn(a.nodes, Slots(a.uses), a.nodes[n].d2);
      SlotsAreNamed(a.uses, t.nodes, a.labels, e);
    }
  }

  lemma StillNamed(a: seq<Node>, b: seq<Node>, t: Table)
    requires EdgesNamed(a, t) && SameReach(a, b) && NoNewEdges(a, b)
    ensures EdgesNamed(b, t)
  {
    hide Reached, NamedSlot;
    forall e | IsEdge(b, e) && Solid(b, e)
      ensures NamedSlot(t, e)
    {
      assert SameOutputs(a, b, e.node);
      var n :| 0 <= n < |b| && HasEdge(b[n], e);
    }
  }

  // Whatever an edge leads to has an input left for its tokens.
  lemma EdgesHaveRoom(nodes: seq<Node>, t: Table, e: Dest)
    requires EdgesNamed(nodes, t) && SameNodes(nodes, t) && IsEdge(nodes, e) && e.node < |nodes| && IsInput(e.input)
    ensures Inputs(nodes[e.node].op) == 2 ==> nodes[e.node].in1.NoArg? || nodes[e.node].in2.NoArg?
  {
    hide Fixed, IsInput;
    var k := e.node;
    if Inputs(nodes[k].op) == 2 {
      assert !IsDup(nodes[k]);
      assert NamedSlot(t, e);
      assert nodes[k] == Fixed(t.nodes[k], t.labels.Keys).(d1 := nodes[k].d1, d2 := nodes[k].d2);
      FixedOp(t.nodes[k], t.labels.Keys);
      UseHasRoom(t.nodes[k], t.labels.Keys);
    }
  }

  lemma FixedOp(n: Node, labels: set<string>)
    ensures Fixed(n, labels).op == n.op
  {
  }

  // The graph after both passes: all nodes, those still in it, and where the labels point.
  datatype Graph = Graph(nodes: seq<Node>, left: seq<nat>, labels: map<string, nat>)

  // parse_create_ir_graph and optimize_graph
  method Wire(rows: seq<Row>) returns (r: Option<Graph>, ghost t: Table)
    ensures r.Some? ==> t == TableOf(rows, |rows|) && r.value.labels == t.labels && Tidy(r.value.nodes) && AllWired(r.value.nodes, t)
    ensures r.Some? ==> SameNodes(r.value.nodes, t) && SplitsWired(r.value.nodes, t) && LeftOk(t, r.value.nodes, r.value.left)
    ensures r.Some? ==> EdgesNamed(r.value.nodes, t) && (t.nodes == [] ==> r.value.nodes == [])
    ensures r.None? <==> exists k :: 0 <= k < |rows| && Breaks(rows, k)
  {
    hide Tidy, Wired, SameReach, SameNodes, SplitsWired, LeftOk, EdgesNamed, NoNewEdges, OnlyDupsGone, Breaks, TableOf, UsesOf, Assembler.Hooked, FixedUpTo;
    var parsed := ParseRows(rows);
    t := EMPTY;
    if parsed.None? { return None, t; }
    t := parsed.value;
    var a := new Assembler(parsed.value.nodes, parsed.value.owner.defs, parsed.value.labels.Keys, parsed.value.owner);
    NoUsesYet(t);
    a.HookInputs();
    forall x, j: nat | x in t.owner.defs && j < |t.owner.defs[x]|
      ensures Wired(a.nodes, t, x, j)
    {
      HookedIsWired(a, t, x, j);
    }
    assert t.nodes == [] ==> a.nodes == [];
    HookedIsTidy(a);
    HookedSplits(a.nodes, t);
    HookedEdges(a, t);
    var live := seq(|a.nodes|, i => i);
    var after, left := OptimizeGraph(a.nodes, live);
    forall x, j: nat | x in t.owner.defs && j < |t.owner.defs[x]|
      ensures Wired(after, t, x, j)
    {
      StillWired(a.nodes, after, t, x, j);
    }
    StillSplits(a.nodes, after, t);
    StillNamed(a.nodes, after, t);
    StillSameNodes(a.nodes, after, t);
    LeftFrom(t, a.nodes, live, left);
    assert t.nodes == [] ==> after == [] by { SameReachLength(a.nodes, after); }
    assert LeftOk(t, after, left) by { SameLength(a.nodes, after, t, left); }
    r := Some(Graph(after, left, parsed.value.labels));
  }

  lemma SameReachLength(a: seq<Node>, b: seq<Node>)
    requires SameReach(a, b)
    ensures |a| == |b|
  {
  }

  lemma SameLength(a: seq<Node>, b: seq<Node>, t: Table, left: seq<nat>)
    requires SameReach(a, b) && LeftOk(t, a, left)
    ensures LeftOk(t, b, left)
  {
  }

  lemma NoUsesYet(t: Table)
    ensures UsesAre(NoUses(t.owner.defs), t.nodes, t.labels.Keys, 0)
  {
  }

  lemma HookedIsTidy(a: Assembler)
    requires a.Hooked()
    ensures Tidy(a.nodes)
  {
    hide Tidy;
  }
}
