// Giving every reachable node an address, and every edge the destination word of its target.
module Placement {
  import opened Words
  import opened Numbers
  import opened Types
  import opened IrGraph
  import Format

  // An instruction whose destinations and label literal are still to come.
  datatype Placed = Placed(op: Opcode, d1: Option<Destination>, d2: Option<Destination>, literal1: Arg, literal2: Arg)

  type Labels = map<string, nat>
  type Index = map<nat, nat>

  function NodeToInstruction(n: Node): Placed
    requires n.op.Op?
  {
    Placed(n.op.op, None, None, n.in1, n.in2)
  }

  function Matching(n: Node): bv32 {
    if Inputs(n.op) == 1 then MATCHING_ONE
    else if n.op == Op(MER) then MATCHING_ANY
    else if !n.in1.NoArg? then MATCHING_ONE
    else MATCHING_BOTH
  }

  // Edges stay in the graph; an instruction is not the target of a label unless it has an address.
  ghost predicate InGraph(nodes: seq<Node>, e: Option<Dest>) {
    e.Some? ==> e.value.node < |nodes| && IsInput(e.value.input)
  }

  predicate LabelOk(nodes: seq<Node>, labels: Labels, live: seq<nat>, n: Node) {
    n.in1.Ref? ==> n.in1.name in labels && labels[n.in1.name] in live && labels[n.in1.name] < |nodes|
                   && nodes[labels[n.in1.name]].op.Op?
  }

  ghost predicate Placeable(nodes: seq<Node>, labels: Labels, live: seq<nat>) {
    && |nodes| <= 0xFFF_FFFB
    && (forall k :: 0 <= k < |live| ==> live[k] < |nodes|)
    && forall n :: 0 <= n < |nodes| ==>
      InGraph(nodes, nodes[n].d1) && InGraph(nodes, nodes[n].d2) && LabelOk(nodes, labels, live, nodes[n])
  }

  predicate IsPlaced(nodes: seq<Node>, idx: Index, n: nat) {
    n < |nodes| && (nodes[n].op.Op? ==> n in idx)
  }

  // ---- Destination words ----

  function TargetWord(nodes: seq<Node>, idx: Index, e: Dest): Destination
    requires IsPlaced(nodes, idx, e.node)
  {
    match nodes[e.node].op
    case OUTD => Types.OUTPUTD
    case OUTS => Types.OUTPUTS
    case Op(_) => CreateDestination(Word(idx[e.node]), e.input, Matching(nodes[e.node]))
  }

  function EdgeWord(nodes: seq<Node>, idx: Index, e: Option<Dest>): Option<Destination>
    requires e.Some? ==> IsPlaced(nodes, idx, e.value.node)
  {
    if e.None? then None else Some(TargetWord(nodes, idx, e.value))
  }

  function LabelWord(idx: Index, target: nat): Data
    requires target in idx
  {
    CreateDestination(Word(idx[target]), INPUT_ONE, MATCHING_ONE) as Data
  }

  ghost predicate Reaches(nodes: seq<Node>, labels: Labels, idx: Index, n: Node) {
    && (n.d1.Some? ==> IsPlaced(nodes, idx, n.d1.value.node))
    && (n.d2.Some? ==> IsPlaced(nodes, idx, n.d2.value.node))
    && (n.in1.Ref? ==> n.in1.name in labels && labels[n.in1.name] in idx)
  }

  // The finished instruction of a node.
  function Final(nodes: seq<Node>, labels: Labels, idx: Index, n: Node): Placed
    requires n.op.Op? && Reaches(nodes, labels, idx, n)
  {
    Placed(n.op.op, EdgeWord(nodes, idx, n.d1), EdgeWord(nodes, idx, n.d2),
           if n.in1.Ref? then Literal(LabelWord(idx, labels[n.in1.name])) else n.in1, n.in2)
  }

  // ---- What the loader has to know ----

  // An edge to a place that is no instruction.
  predicate ToPlace(nodes: seq<Node>, e: Option<Dest>) {
    e.Some? && e.value.node < |nodes| && !nodes[e.value.node].op.Op?
  }

  // Destinations that stay as they are wherever the program is loaded.
  function OwnConstant(nodes: seq<Node>, e: Option<Dest>, first: bool, at: nat): seq<Format.Patch> {
    if ToPlace(nodes, e) then [Format.Patch(at, first, !first, false, false)] else []
  }

  function OwnConstants(nodes: seq<Node>, n: Node, at: nat): seq<Format.Patch> {
    OwnConstant(nodes, n.d1, true, at) + OwnConstant(nodes, n.d2, false, at)
  }

  // Literals that are addresses.
  function OwnLabels(n: Node, at: nat): seq<Format.Patch> {
    if n.in1.Ref? then [Format.Patch(at, false, false, true, false)] else []
  }

  // Those of the first v placed nodes.
  function Constants(nodes: seq<Node>, order: seq<nat>, v: nat): seq<Format.Patch>
    requires v <= |order| && forall k :: 0 <= k < |order| ==> order[k] < |nodes|
  {
    if v == 0 then [] else Constants(nodes, order, v - 1) + OwnConstants(nodes, nodes[order[v - 1]], v - 1)
  }

  function LabelPatches(nodes: seq<Node>, order: seq<nat>, v: nat): seq<Format.Patch>
    requires v <= |order| && forall k :: 0 <= k < |order| ==> order[k] < |nodes|
  {
    if v == 0 then [] else LabelPatches(nodes, order, v - 1) + OwnLabels(nodes[order[v - 1]], v - 1)
  }

  ghost predicate ListsAre(nodes: seq<Node>, order: seq<nat>, v: nat, constants: seq<Format.Patch>, labelled: seq<Format.Patch>) {
    && v <= |order| && (forall k :: 0 <= k < |order| ==> order[k] < |nodes|)
    && constants == Constants(nodes, order, v) && labelled == LabelPatches(nodes, order, v)
  }

  // Placing more nodes does not change the lists so far.
  lemma {:induction false} ListsStay(nodes: seq<Node>, order: seq<nat>, more: seq<nat>, v: nat)
    requires v <= |order| && order <= more && forall k :: 0 <= k < |more| ==> more[k] < |nodes|
    ensures Constants(nodes, more, v) == Constants(nodes, order, v)
    ensures LabelPatches(nodes, more, v) == LabelPatches(nodes, order, v)
  {
    hide OwnConstants, OwnLabels;
    if v > 0 { ListsStay(nodes, order, more, v - 1); }
  }

  // ---- The placement so far ----

  // The nodes in the order of their addresses.
  ghost predicate Indexed(nodes: seq<Node>, order: seq<nat>, idx: Index) {
    && (forall k :: 0 <= k < |order| ==> order[k] in idx && idx[order[k]] == k && order[k] < |nodes| && nodes[order[k]].op.Op?)
    && (forall n :: n in idx ==> idx[n] < |order| && order[idx[n]] == n)
  }

  ghost predicate Done(nodes: seq<Node>, labels: Labels, order: seq<nat>, idx: Index, insts: seq<Placed>, k: nat)
    requires k < |order| == |insts| && order[k] < |nodes| && nodes[order[k]].op.Op?
  {
    Reaches(nodes, labels, idx, nodes[order[k]]) && insts[k] == Final(nodes, labels, idx, nodes[order[k]])
  }

  // The first v instructions are finished, the others are as their nodes.
  ghost predicate Finished(nodes: seq<Node>, labels: Labels, order: seq<nat>, idx: Index, insts: seq<Placed>, v: nat) {
    && Indexed(nodes, order, idx) && |insts| == |order| && v <= |order|
    && (forall k :: 0 <= k < v ==> Done(nodes, labels, order, idx, insts, k))
    && (forall k :: v <= k < |order| ==> insts[k] == NodeToInstruction(nodes[order[k]]))
  }

  lemma IndexMore(nodes: seq<Node>, order: seq<nat>, idx: Index, n: nat)
    requires Indexed(nodes, order, idx) && n !in idx && n < |nodes| && nodes[n].op.Op?
    ensures Indexed(nodes, order + [n], idx[n := |order|])
  {
  }

  lemma FinishedMore(nodes: seq<Node>, labels: Labels, order: seq<nat>, idx: Index, insts: seq<Placed>, v: nat, n: nat)
    requires Finished(nodes, labels, order, idx, insts, v) && n !in idx && n < |nodes| && nodes[n].op.Op?
    ensures Finished(nodes, labels, order + [n], idx[n := |order|], insts + [NodeToInstruction(nodes[n])], v)
  {
    hide LabelWord, TargetWord;
    IndexMore(nodes, order, idx, n);
    var o, x, i := order + [n], idx[n := |order|], insts + [NodeToInstruction(nodes[n])];
    forall k | 0 <= k < v
      ensures Done(nodes, labels, o, x, i, k)
    {
      assert Done(nodes, labels, order, idx, insts, k);
      FinalKept(nodes, labels, idx, n, |order|, nodes[order[k]]);
    }
  }

  // A new address does not change the instructions that are finished.
  lemma FinalKept(nodes: seq<Node>, labels: Labels, idx: Index, m: nat, at: nat, n: Node)
    requires n.op.Op? && Reaches(nodes, labels, idx, n) && m !in idx
    ensures Reaches(nodes, labels, idx[m := at], n)
    ensures Final(nodes, labels, idx[m := at], n) == Final(nodes, labels, idx, n)
  {
    hide Matching, CreateDestination, Word;
  }

  // ---- Exactly the reachable nodes ----

  ghost predicate ClosedSet(nodes: seq<Node>, live: seq<nat>, all: set<nat>) {
    && (forall k :: 0 <= k < |live| && live[k] < |nodes| && nodes[live[k]].op.Op? ==> live[k] in all)
    && forall n :: n in all && n < |nodes| ==> Follows(nodes, all, nodes[n].d1) && Follows(nodes, all, nodes[n].d2)
  }

  ghost predicate Follows(nodes: seq<Node>, all: set<nat>, e: Option<Dest>) {
    e.Some? && e.value.node < |nodes| && nodes[e.value.node].op.Op? ==> e.value.node in all
  }

  // n is in every set that holds the live nodes and follows the edges.
  ghost predicate Reachable(nodes: seq<Node>, live: seq<nat>, n: nat) {
    forall all :: ClosedSet(nodes, live, all) ==> n in all
  }

  lemma ReachNext(nodes: seq<Node>, live: seq<nat>, p: nat, e: Dest)
    requires Reachable(nodes, live, p) && p < |nodes| && (nodes[p].d1 == Some(e) || nodes[p].d2 == Some(e))
    requires e.node < |nodes| && nodes[e.node].op.Op?
    ensures Reachable(nodes, live, e.node)
  {
    forall all | ClosedSet(nodes, live, all)
      ensures e.node in all
    {
      assert p in all && Follows(nodes, all, nodes[p].d1) && Follows(nodes, all, nodes[p].d2);
    }
  }

  ghost predicate AllReachable(nodes: seq<Node>, live: seq<nat>, idx: Index) {
    forall n :: n in idx ==> Reachable(nodes, live, n)
  }

  ghost predicate LivePlaced(nodes: seq<Node>, live: seq<nat>, idx: Index, k: nat) {
    forall j :: 0 <= j < k <= |live| ==> IsPlaced(nodes, idx, live[j])
  }

  class Placer {
    const nodes: seq<Node>
    const labels: Labels
    ghost const live: seq<nat>
    var insts: seq<Placed>
    var idx: Index
    var toVisit: seq<nat>
    var constants: seq<Format.Patch>
    var labelled: seq<Format.Patch>
    ghost var order: seq<nat>

    // v nodes are finished, and u have been taken from the worklist.
    ghost predicate Placing(v: nat, u: nat)
      reads this
    {
      && Placeable(nodes, labels, live)
      && Finished(nodes, labels, order, idx, insts, v) && v <= u <= |order| && toVisit == order[u..]
      && AllReachable(nodes, live, idx)
    }

    constructor (nodes: seq<Node>, labels: Labels, ghost live: seq<nat>)
      requires Placeable(nodes, labels, live)
      ensures this.nodes == nodes && this.labels == labels && this.live == live && Placing(0, 0) && idx == map[]
      ensures constants == [] && labelled == []
    {
      this.nodes, this.labels, this.live := nodes, labels, live;
      insts, idx, toVisit, order, constants, labelled := [], map[], [], [], [], [];
    }

    // A node that has no address yet gets the next one, and waits to be visited.
    method Place(n: nat, ghost v: nat, ghost u: nat)
      requires Placing(v, u) && n !in idx && n < |nodes| && nodes[n].op.Op? && Reachable(nodes, live, n)
      modifies this`insts, this`idx, this`toVisit, this`order
      ensures Placing(v, u) && idx == old(idx)[n := |old(order)|] && order == old(order) + [n]
    {
      hide Placeable, Finished, Reachable;
      PlaceMore(nodes, labels, order, idx, insts, v, u, n);
      idx := idx[n := |insts|];
      insts := insts + [NodeToInstruction(nodes[n])];
      toVisit := toVisit + [n];
      order := order + [n];
    }

    // The word of an edge of node p; its target gets an address first if it has none.
    method Target(e: Dest, first: bool, p: nat, ghost v: nat, ghost u: nat) returns (word: Destination)
      requires Placing(v, u) && p in idx && p < |nodes| && (nodes[p].d1 == Some(e) || nodes[p].d2 == Some(e))
      modifies this`insts, this`idx, this`toVisit, this`order, this`constants
      ensures constants == old(constants) + OwnConstant(nodes, Some(e), first, old(idx[p]))
      ensures Placing(v, u) && IsPlaced(nodes, idx, e.node) && word == TargetWord(nodes, idx, e)
      ensures Grows(old(idx), idx, old(order), order)
    {
      hide Finished, Reachable, Word, CreateDestination, Matching;
      assert InGraph(nodes, Some(e));
      match nodes[e.node].op
      case OUTD =>
        word := Types.OUTPUTD;
        constants := constants + [Format.Patch(idx[p], first, !first, false, false)];
      case OUTS =>
        word := Types.OUTPUTS;
        constants := constants + [Format.Patch(idx[p], first, !first, false, false)];
      case Op(_) =>
        if e.node !in idx {
          ReachNext(nodes, live, p, e);
          Place(e.node, v, u);
        }
        word := CreateDestination(Word(idx[e.node]), e.input, Matching(nodes[e.node]));
    }

    // One of the two destinations
    method Output(e: Option<Dest>, first: bool, p: nat, ghost v: nat, ghost u: nat) returns (word: Option<Destination>)
      requires Placing(v, u) && p in idx && p < |nodes| && (e.Some? ==> nodes[p].d1 == e || nodes[p].d2 == e)
      modifies this`insts, this`idx, this`toVisit, this`order, this`constants
      ensures Placing(v, u) && (e.Some? ==> IsPlaced(nodes, idx, e.value.node)) && word == EdgeWord(nodes, idx, e)
      ensures Grows(old(idx), idx, old(order), order)
      ensures constants == old(constants) + OwnConstant(nodes, e, first, old(idx[p]))
    {
      hide Finished, Reachable, Placeable, TargetWord;
      word := None;
      if e.Some? {
        var target := Target(e.value, first, p, v, u);
        word := Some(target);
      }
    }

    // The label literal, if there is one
    method Label(n: Node, node: nat, inst: Placed, ghost v: nat) returns (r: Placed)
      requires node in idx && idx[node] == v && (n.in1.Ref? ==> n.in1.name in labels && labels[n.in1.name] in idx)
      modifies this`labelled
      ensures labelled == old(labelled) + OwnLabels(n, v)
      ensures r == if n.in1.Ref? then inst.(literal1 := Literal(LabelWord(idx, labels[n.in1.name]))) else inst
    {
      hide LabelWord;
      r := inst;
      if n.in1.Ref? {
        r := inst.(literal1 := Literal(LabelWord(idx, labels[n.in1.name])));
        labelled := labelled + [Format.Patch(idx[node], false, false, true, false)];
      }
    }

    // One turn of the worklist: the oldest waiting node gets its words.
    method Visit(ghost v: nat)
      requires Placing(v, v) && v < |order| && LivePlaced(nodes, live, idx, |live|)
      requires ListsAre(nodes, order, v, constants, labelled)
      modifies this`insts, this`idx, this`toVisit, this`order, this`constants, this`labelled
      ensures Placing(v + 1, v + 1) && Grows(old(idx), idx, old(order), order)
      ensures ListsAre(nodes, order, v + 1, constants, labelled)
    {
      hide ListsAre, OwnConstant, OwnLabels, Finished, Reachable, Placeable, Final, TargetWord, LabelWord, EdgeWord;
      NextNode(nodes, labels, order, idx, insts, v);
      AtNode(nodes, labels, live, order[v]);
      var node := toVisit[0];
      toVisit := toVisit[1..];
      var n := nodes[node];
      if n.in1.Ref? { LabelPlaced(nodes, labels, live, idx, n); }
      var inst := Label(n, node, insts[idx[node]], v);
      ghost var x0 := idx;
      var d1 := Output(n.d1, true, node, v, v + 1);
      ghost var x1 := idx;
      var d2 := Output(n.d2, false, node, v, v + 1);
      inst := inst.(d1 := d1, d2 := d2);
      OrderInside(nodes, labels, order, idx, insts, v);
      assert constants == old(constants) + OwnConstants(nodes, n, v);
      ListsNext(nodes, old(order), order, v, old(constants), old(labelled), constants, labelled, n);
      FinalFrom(nodes, labels, x0, x1, idx, n, inst);
      FinishNext(nodes, labels, order, idx, insts, v, inst);
      insts := insts[idx[node] := inst];
    }

    // graph_to_instructions: first the nodes of the graph, then whatever they lead to.
    method Run(graph: seq<nat>)
      requires Placing(0, 0) && idx == map[] && graph == live && constants == [] && labelled == []
      requires forall i, j :: 0 <= i < j < |graph| ==> graph[i] != graph[j]
      modifies this`insts, this`idx, this`toVisit, this`order, this`constants, this`labelled
      ensures Finished(nodes, labels, order, idx, insts, |order|)
      ensures ListsAre(nodes, order, |order|, constants, labelled)
      ensures forall n: nat :: n in idx <==> n < |nodes| && nodes[n].op.Op? && Reachable(nodes, live, n)
      ensures StartsWith(nodes, graph, order)
    {
      hide Finished, Reachable, Placeable, ListsAre;
      NothingPlaced(nodes, labels, order, idx, insts);
      for k := 0 to |graph|
        invariant Placing(0, 0) && LivePlaced(nodes, live, idx, k)
        invariant forall n :: n in idx ==> n in graph[..k]
        invariant if k == 0 then order == [] else StartsWith(nodes, graph, order)
        invariant constants == [] && labelled == []
      {
        var n := graph[k];
        LiveReachable(nodes, labels, live, k);
        if nodes[n].op.Op? {
          NotBefore(graph, k);
          Place(n, 0, 0);
        }
      }
      ghost var v := 0;
      NoLists(nodes, labels, order, idx, insts);
      while toVisit != []
        invariant Placing(v, v) && LivePlaced(nodes, live, idx, |live|)
        invariant graph != [] ==> StartsWith(nodes, graph, order)
        invariant ListsAre(nodes, order, v, constants, labelled)
        decreases Nodes(|nodes|) - idx.Keys, |order| - v
      {
        ghost var before, o := idx, order;
        Visit(v);
        v := v + 1;
        Measure(nodes, order, idx, insts, labels, v, before, o);
      }
      assert v == |order|;
      Closes(nodes, labels, live, order, idx, insts);
    }
  }

  lemma NoLists(nodes: seq<Node>, labels: Labels, order: seq<nat>, idx: Index, insts: seq<Placed>)
    requires Finished(nodes, labels, order, idx, insts, 0)
    ensures ListsAre(nodes, order, 0, [], [])
  {
  }

  lemma OrderInside(nodes: seq<Node>, labels: Labels, order: seq<nat>, idx: Index, insts: seq<Placed>, v: nat)
    requires Finished(nodes, labels, order, idx, insts, v)
    ensures forall k :: 0 <= k < |order| ==> order[k] < |nodes|
  {
  }

  // The entries of the node just visited.
  lemma ListsNext(nodes: seq<Node>, o: seq<nat>, order: seq<nat>, v: nat, cs: seq<Format.Patch>, ls: seq<Format.Patch>,
                  constants: seq<Format.Patch>, labelled: seq<Format.Patch>, n: Node)
    requires ListsAre(nodes, o, v, cs, ls) && o <= order && v < |o| && (forall k :: 0 <= k < |order| ==> order[k] < |nodes|)
    requires n == nodes[o[v]] && constants == cs + OwnConstants(nodes, n, v) && labelled == ls + OwnLabels(n, v)
    ensures ListsAre(nodes, order, v + 1, constants, labelled)
  {
    hide OwnConstants, OwnLabels;
    ListsStay(nodes, o, order, v);
  }

  // The first node of the graph comes first, if it is an instruction.
  ghost predicate StartsWith(nodes: seq<Node>, graph: seq<nat>, order: seq<nat>) {
    graph != [] && graph[0] < |nodes| && nodes[graph[0]].op.Op? ==> order != [] && order[0] == graph[0]
  }

  lemma NothingPlaced(nodes: seq<Node>, labels: Labels, order: seq<nat>, idx: Index, insts: seq<Placed>)
    requires Finished(nodes, labels, order, idx, insts, 0) && idx == map[]
    ensures order == []
  {
    if order != [] { FirstIndexed(nodes, order, idx); }
  }

  lemma FirstIndexed(nodes: seq<Node>, order: seq<nat>, idx: Index)
    requires Indexed(nodes, order, idx) && order != []
    ensures idx != map[]
  {
    assert order[0] in idx;
  }

  lemma LiveReachable(nodes: seq<Node>, labels: Labels, live: seq<nat>, k: nat)
    requires Placeable(nodes, labels, live) && k < |live|
    ensures live[k] < |nodes| && (nodes[live[k]].op.Op? ==> Reachable(nodes, live, live[k]))
  {
    forall all | ClosedSet(nodes, live, all) && nodes[live[k]].op.Op? ensures live[k] in all { }
  }

  lemma NotBefore(q: seq<nat>, k: nat)
    requires k < |q| && forall i, j :: 0 <= i < j < |q| ==> q[i] != q[j]
    ensures q[k] !in q[..k]
  {
  }

  ghost function Nodes(n: nat): (r: set<nat>)
    ensures forall i: nat :: i in r <==> i < n
  {
    if n == 0 then {} else Nodes(n - 1) + {n - 1}
  }

  // Either a new address was given, or the worklist got shorter.
  lemma Measure(nodes: seq<Node>, order: seq<nat>, idx: Index, insts: seq<Placed>, labels: Labels, v: nat, before: Index, o: seq<nat>)
    requires Finished(nodes, labels, order, idx, insts, v) && Grows(before, idx, o, order)
    ensures idx.Keys <= Nodes(|nodes|) && (order == o ==> idx.Keys == before.Keys)
    ensures order != o ==> Nodes(|nodes|) - idx.Keys < Nodes(|nodes|) - before.Keys
  {
    forall n | n in idx ensures n < |nodes| { assert order[idx[n]] == n; }
    if order != o {
      assert before.Keys <= idx.Keys;
      var n :| n in idx.Keys && n !in before.Keys;
      assert n in Nodes(|nodes|) - before.Keys;
    }
  }

  // The placed nodes are closed under the edges.
  lemma Closes(nodes: seq<Node>, labels: Labels, live: seq<nat>, order: seq<nat>, idx: Index, insts: seq<Placed>)
    requires Finished(nodes, labels, order, idx, insts, |order|) && LivePlaced(nodes, live, idx, |live|)
    requires AllReachable(nodes, live, idx)
    ensures forall n: nat :: n in idx <==> n < |nodes| && nodes[n].op.Op? && Reachable(nodes, live, n)
  {
    hide Final;
    forall k | 0 <= k < |live| && live[k] < |nodes| && nodes[live[k]].op.Op?
      ensures live[k] in idx.Keys
    {
      assert IsPlaced(nodes, idx, live[k]);
    }
    forall n | n in idx.Keys && n < |nodes|
      ensures Follows(nodes, idx.Keys, nodes[n].d1) && Follows(nodes, idx.Keys, nodes[n].d2)
    {
      assert Done(nodes, labels, order, idx, insts, idx[n]);
    }
    assert ClosedSet(nodes, live, idx.Keys);
  }

  lemma NextNode(nodes: seq<Node>, labels: Labels, order: seq<nat>, idx: Index, insts: seq<Placed>, v: nat)
    requires Finished(nodes, labels, order, idx, insts, v) && v < |order|
    ensures order[v] in idx && idx[order[v]] == v < |insts| && order[v] < |nodes| && nodes[order[v]].op.Op?
    ensures insts[v] == NodeToInstruction(nodes[order[v]])
  {
  }

  lemma AtNode(nodes: seq<Node>, labels: Labels, live: seq<nat>, n: nat)
    requires Placeable(nodes, labels, live) && n < |nodes|
    ensures LabelOk(nodes, labels, live, nodes[n])
  {
  }

  lemma LabelPlaced(nodes: seq<Node>, labels: Labels, live: seq<nat>, idx: Index, n: Node)
    requires LabelOk(nodes, labels, live, n) && n.in1.Ref? && LivePlaced(nodes, live, idx, |live|)
    ensures n.in1.name in labels && labels[n.in1.name] in idx
  {
    var k :| 0 <= k < |live| && live[k] == labels[n.in1.name];
    assert IsPlaced(nodes, idx, live[k]);
  }

  // The instruction built while the addresses grew from x0 over x1 to x2 is the final one.
  lemma FinalFrom(nodes: seq<Node>, labels: Labels, x0: Index, x1: Index, x2: Index, n: Node, inst: Placed)
    requires Extends(x0, x1) && Extends(x1, x2) && n.op.Op? && inst.op == n.op.op && inst.literal2 == n.in2
    requires n.in1.Ref? ==> n.in1.name in labels && labels[n.in1.name] in x0
    requires inst.literal1 == if n.in1.Ref? then Literal(LabelWord(x0, labels[n.in1.name])) else n.in1
    requires n.d1.Some? ==> IsPlaced(nodes, x1, n.d1.value.node)
    requires inst.d1 == EdgeWord(nodes, x1, n.d1)
    requires n.d2.Some? ==> IsPlaced(nodes, x2, n.d2.value.node)
    requires inst.d2 == EdgeWord(nodes, x2, n.d2)
    ensures Reaches(nodes, labels, x2, n) && inst == Final(nodes, labels, x2, n)
  {
    hide Word, CreateDestination, Matching;
  }

  lemma FinishNext(nodes: seq<Node>, labels: Labels, order: seq<nat>, idx: Index, insts: seq<Placed>, v: nat, inst: Placed)
    requires Finished(nodes, labels, order, idx, insts, v) && v < |order|
    requires order[v] < |nodes| && nodes[order[v]].op.Op?
    requires Reaches(nodes, labels, idx, nodes[order[v]]) && inst == Final(nodes, labels, idx, nodes[order[v]])
    ensures v < |insts| && Finished(nodes, labels, order, idx, insts[v := inst], v + 1)
  {
    hide Final;
    var after := insts[v := inst];
    forall k | 0 <= k < v
      ensures Done(nodes, labels, order, idx, after, k)
    {
      assert Done(nodes, labels, order, idx, insts, k);
    }
  }

  ghost predicate Extends(a: Index, b: Index) {
    forall n :: n in a ==> n in b && b[n] == a[n]
  }

  // Either nothing has changed, or there is a new address.
  ghost predicate Grows(a: Index, b: Index, o: seq<nat>, p: seq<nat>) {
    Extends(a, b) && o <= p && if o == p then a == b else exists n :: n in b && n !in a
  }

  lemma PlaceMore(nodes: seq<Node>, labels: Labels, order: seq<nat>, idx: Index, insts: seq<Placed>,
                  v: nat, u: nat, n: nat)
    requires Finished(nodes, labels, order, idx, insts, v) && n !in idx && n < |nodes| && nodes[n].op.Op?
    requires u <= |order|
    ensures Finished(nodes, labels, order + [n], idx[n := |order|], insts + [NodeToInstruction(nodes[n])], v)
    ensures |insts| == |order| && (order + [n])[u..] == order[u..] + [n]
  {
    FinishedMore(nodes, labels, order, idx, insts, v, n);
  }
}
