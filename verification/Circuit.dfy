// The whole assembler, and compiled programs as circuits: which slots every output reaches, and
// where every node sits in the instruction store.
module Circuit {
  import opened Words
  import T = Tass
  import G = TokenGame
  import opened Types
  import opened IrGraph
  import FO = FanOut
  import Format
  import opened Parser
  import opened Optimize
  import opened Wiring
  import opened Placement
  import opened Assembled
  import opened Rendering

  // The nodes, those still in the graph, and the placement.
  datatype Circuit = Circuit(nodes: seq<Node>, left: seq<nat>, labels: Labels, order: seq<nat>, idx: Index, insts: seq<Placed>)
  {
    function Program(): seq<Instruction> { Assembled.Program(insts) }
  }

  // What the passes of the assembler make of the rows.
  ghost predicate BuiltFrom(rows: seq<Row>, c: Circuit) {
    var t := TableOf(rows, |rows|);
    && c.labels == t.labels
    && Tidy(c.nodes) && AllWired(c.nodes, t) && SameNodes(c.nodes, t) && SplitsWired(c.nodes, t) && LeftOk(t, c.nodes, c.left)
    && EdgesNamed(c.nodes, t) && Complete(c.nodes, c.labels, c.left, c.order, c.idx, c.insts)
    && (forall k :: 0 <= k < |c.left| ==> IsPlaced(c.nodes, c.idx, c.left[k]))
    && StartsWith(c.nodes, c.left, c.order) && (t.nodes == [] ==> c.nodes == [])
  }

  const MAX_NODES: nat := 0xFFF_FFFB

  method LabelsOk(nodes: seq<Node>, labels: Labels, left: seq<nat>) returns (ok: bool)
    ensures ok <==> forall n :: 0 <= n < |nodes| ==> LabelOk(nodes, labels, left, nodes[n])
  {
    hide LabelOk;
    for k := 0 to |nodes|
      invariant forall n :: 0 <= n < k ==> LabelOk(nodes, labels, left, nodes[n])
    {
      if !LabelOk(nodes, labels, left, nodes[k]) { return false; }
    }
    return true;
  }

  // What the assembler writes: the instructions, and what the loader leaves alone or has to move.
  datatype Object = Object(code: seq<Instruction>, constants: seq<Format.Patch>, labels: seq<Format.Patch>)

  // Rows to instructions. The assembler takes for granted that the nodes have room below the I/O
  // addresses and that a label marks an instruction.
  method Assemble(rows: seq<Row>) returns (r: Option<Object>, ghost c: Circuit)
    ensures r.Some? ==> BuiltFrom(rows, c) && r.value.code == c.Program()
    ensures r.Some? ==> ListsAre(c.nodes, c.order, |c.order|, r.value.constants, r.value.labels)
    ensures r.None? ==>
      (exists k :: 0 <= k < |rows| && Breaks(rows, k)) || TableOf(rows, |rows|).labels != map[] || |c.nodes| > MAX_NODES
  {
    hide ListsAre, Tidy, Breaks, TableOf, AllWired, SameNodes, SplitsWired, EdgesNamed, LeftOk, RoomAt, Placeable, Finished, Reachable, LabelOk, FO.Parsed;
    var wired, t := Wire(rows);
    c := Circuit([], [], map[], [], map[], []);
    if wired.None? { return None, c; }
    var g := wired.value;
    c := c.(nodes := g.nodes);
    var fine := LabelsOk(g.nodes, g.labels, g.left);
    if !fine || |g.nodes| > MAX_NODES {
      if |g.nodes| <= MAX_NODES && t.labels == map[] { NoLabelsOk(g, t); }
      return None, c;
    }
    GraphPlaceable(g, t);
    var p := new Placer(g.nodes, g.labels, g.left);
    p.Run(g.left);
    c := Circuit(g.nodes, g.left, g.labels, p.order, p.idx, p.insts);
    forall k | 0 <= k < |c.left| ensures IsPlaced(c.nodes, c.idx, c.left[k]) {
      LiveReachable(g.nodes, g.labels, g.left, k);
    }
    SettledNodes(g.nodes, t);
    EdgesRoom(g.nodes, t);
    return Some(Object(Assembled.Program(p.insts), p.constants, p.labelled)), c;
  }

  lemma SettledNodes(nodes: seq<Node>, t: Table)
    requires SameNodes(nodes, t)
    ensures forall n :: 0 <= n < |nodes| ==> IsSettled(nodes[n])
  {
    hide FO.Cleared;
  }

  lemma EdgesRoom(nodes: seq<Node>, t: Table)
    requires SameNodes(nodes, t) && EdgesNamed(nodes, t) && Tidy(nodes)
    ensures forall n :: 0 <= n < |nodes| ==> RoomAt(nodes, nodes[n].d1) && RoomAt(nodes, nodes[n].d2)
  {
    hide SameNodes, EdgesNamed, IsInput;
    forall n | 0 <= n < |nodes|
      ensures RoomAt(nodes, nodes[n].d1) && RoomAt(nodes, nodes[n].d2)
    {
      assert Onward(nodes, n, nodes[n].d1) && Onward(nodes, n, nodes[n].d2);
      if nodes[n].d1.Some? {
        assert HasEdge(nodes[n], nodes[n].d1.value);
        EdgesHaveRoom(nodes, t, nodes[n].d1.value);
      }
      if nodes[n].d2.Some? {
        assert HasEdge(nodes[n], nodes[n].d2.value);
        EdgesHaveRoom(nodes, t, nodes[n].d2.value);
      }
    }
  }

  // Without labels no argument is left that names one.
  lemma NoLabelsOk(g: Graph, t: Table)
    requires SameNodes(g.nodes, t) && t.labels == map[]
    ensures forall n :: 0 <= n < |g.nodes| ==> LabelOk(g.nodes, g.labels, g.left, g.nodes[n])
  {
  }

  lemma GraphPlaceable(g: Graph, t: Table)
    requires Tidy(g.nodes) && |g.nodes| <= MAX_NODES && LeftOk(t, g.nodes, g.left)
    requires forall n :: 0 <= n < |g.nodes| ==> LabelOk(g.nodes, g.labels, g.left, g.nodes[n])
    ensures Placeable(g.nodes, g.labels, g.left)
    ensures forall i, j :: 0 <= i < j < |g.left| ==> g.left[i] != g.left[j]
    ensures forall n :: n in g.left ==> n < |g.nodes|
  {
    hide Tidy, LabelOk;
    forall k | 0 <= k < |g.left| ensures g.left[k] < |g.nodes| { assert g.left[k] in g.left; }
    TidyIsPlaceable(g.nodes, g.labels, g.left);
  }

  // ---- Compiled programs ----

  // The slots of ds are those that read the name, each listed once; without a name there are none.
  ghost predicate FeedsName(P: seq<T.Line>, ds: seq<Dest>, n: Option<T.Name>) {
    if n.None? then ds == []
    else (forall a, b :: 0 <= a < b < |ds| ==> ds[a] != ds[b]) && forall d :: d in ds <==> ReadsAt(P, d, n.value)
  }

  // Every output of node m leads to the slots that read the name it stands for.
  ghost predicate OutputsFeed(P: seq<T.Line>, nodes: seq<Node>, m: nat, l: T.Line)
    requires m < |nodes|
  {
    match l
    case Branch(t, f, _, _) =>
      FeedsName(P, Reached(nodes, nodes[m].d1), Some(t)) && FeedsName(P, Reached(nodes, nodes[m].d2), f)
    case NewTag(n, o, _) =>
      FeedsName(P, Reached(nodes, nodes[m].d1), Some(n)) && FeedsName(P, Reached(nodes, nodes[m].d2), Some(o))
    case Output(_) => true
    case _ => FeedsName(P, BothReach(nodes, m), Some(l.out))
  }

  ghost predicate LineBuilt(P: seq<T.Line>, c: Circuit, i: nat)
    requires i < |P|
  {
    var m := Main(P, i);
    && m < |c.nodes| && c.nodes[m].op == NodeOpOf(P[i]) && c.nodes[m].in1 == LiteralArg(P[i]) && c.nodes[m].in2 == NoArg
    && !c.nodes[m].optimizable && IsPlaced(c.nodes, c.idx, m) && OutputsFeed(P, c.nodes, m, P[i])
  }

  ghost predicate IsMain(P: seq<T.Line>, n: nat) {
    exists i :: 0 <= i < |P| && Main(P, i) == n
  }

  // d is a slot of some line.
  ghost predicate IsSlot(P: seq<T.Line>, d: Dest) {
    exists i: nat, port: nat :: i < |P| && port < |G.Ports(P[i])| && d == Slot(P, i, port)
  }

  // Every edge to a node that is no DUP of the assembler ends at a slot.
  ghost predicate EdgesEndAtSlots(P: seq<T.Line>, nodes: seq<Node>) {
    forall e :: IsEdge(nodes, e) && Solid(nodes, e) ==> IsSlot(P, e)
  }

  ghost predicate Implements(P: seq<T.Line>, c: Circuit) {
    && Tidy(c.nodes) && c.labels == map[] && Complete(c.nodes, c.labels, c.left, c.order, c.idx, c.insts)
    && (forall i :: 0 <= i < |P| ==> LineBuilt(P, c, i))
    && EdgesEndAtSlots(P, c.nodes) && StartsWith(c.nodes, c.left, c.order)
    && (forall n :: 0 <= n < |c.nodes| && !IsDup(c.nodes[n]) ==> IsMain(P, n))
    && (forall n :: 0 <= n < |c.nodes| && IsDup(c.nodes[n]) ==> c.nodes[n].in1 == c.nodes[n].in2 == NoArg)
  }

  // Definition j of a text reaches the uses, if it is the only one.
  lemma UsesFeed(P: seq<T.Line>, w: Spelling, t: Table, n: T.Name)
    requires TableIs(P, w, |P|, t) && Spells(w, P) && Mentions(P, n)
    ensures FeedsName(P, FO.UsesOf(t.nodes, {}, w(n), |t.nodes|), Some(n))
  {
    hide TableIs, Spells, Mentions, ReadsAt, FO.UsesOf;
    FO.UsesDiffer(t.nodes, {}, w(n), |t.nodes|);
    forall d ensures d in FO.UsesOf(t.nodes, {}, w(n), |t.nodes|) <==> ReadsAt(P, d, n) { UsesAreSlots(P, w, t, n, d); }
  }

  lemma NameMentioned(P: seq<T.Line>, i: nat, n: T.Name)
    requires i < |P| && n in T.Outs(P[i])
    ensures Mentions(P, n)
  {
  }

  // A name that a plain line defines.
  lemma PlainFeeds(P: seq<T.Line>, w: Spelling, c: Circuit, t: Table, i: nat)
    requires TableIs(P, w, |P|, t) && Spells(w, P) && AllWired(c.nodes, t) && i < |P|
    requires !IsSplit(P[i]) && !P[i].Output?
    ensures Main(P, i) < |c.nodes| && FeedsName(P, BothReach(c.nodes, Main(P, i)), Some(P[i].out))
  {
    hide Spells, FeedsName, FO.UsesOf, BothReach, Defines, NodesOf;
    var n := P[i].out;
    assert n in T.Outs(P[i]);
    NameMentioned(P, i, n);
    UsesFeed(P, w, t, n);
    assert DefsOf(P, w, t, i) && t.labels.Keys == {};
    assert Wired(c.nodes, t, w(n), 0);
  }

  // A name behind an output of a line with two.
  lemma SplitFeeds(P: seq<T.Line>, w: Spelling, c: Circuit, t: Table, i: nat, n: T.Name)
    requires TableIs(P, w, |P|, t) && Spells(w, P) && SplitsWired(c.nodes, t) && |t.nodes| <= |c.nodes| && i < |P|
    requires IsSplit(P[i]) && n in T.Outs(P[i])
    ensures var m := Main(P, i);
      && m < |c.nodes|
      && (DefNode(P, i, n) == Size(P, i) ==> FeedsName(P, Reached(c.nodes, c.nodes[m].d1), Some(n)))
      && (DefNode(P, i, n) == Size(P, i) + 1 ==> FeedsName(P, Reached(c.nodes, c.nodes[m].d2), Some(n)))
  {
    hide Spells, FeedsName, FO.UsesOf, Reached, Defines, DefNode;
    NameMentioned(P, i, n);
    UsesFeed(P, w, t, n);
    assert DefsOf(P, w, t, i) && NodesOf(P, w, t.nodes, i) && t.labels.Keys == {};
    var m := Main(P, i);
    SplitTargets(P, w, i);
    assert m < |t.nodes|;
    assert LedTo(t, t.nodes[m].d1, w(n), 0) ==> PassedOn(c.nodes, t, c.nodes[m].d1, w(n), 0);
    assert LedTo(t, t.nodes[m].d2, w(n), 0) ==> PassedOn(c.nodes, t, c.nodes[m].d2, w(n), 0);
  }

  lemma SplitTargets(P: seq<T.Line>, w: Spelling, i: nat)
    requires i < |P| && IsSplit(P[i])
    ensures Main(P, i) == Size(P, i) + 2
    ensures MainNode(ActionOf(P[i], w), Main(P, i)).d1 == Some(Dest(Size(P, i), INPUT_ONE))
    ensures MainNode(ActionOf(P[i], w), Main(P, i)).d2 == Some(Dest(Size(P, i) + 1, INPUT_ONE))
  {
  }

  // The missing false output of a branch leads nowhere.
  lemma MissingFeeds(P: seq<T.Line>, w: Spelling, c: Circuit, t: Table, i: nat)
    requires TableIs(P, w, |P|, t) && SplitsWired(c.nodes, t) && |t.nodes| <= |c.nodes| && i < |P|
    requires P[i].Branch? && P[i].onFalse.None?
    ensures var m := Main(P, i);
      m < |c.nodes| && Reached(c.nodes, c.nodes[m].d2) == []
  {
    hide FO.UsesOf, Reached, Defines, DefNode;
    assert DefsOf(P, w, t, i) && NodesOf(P, w, t.nodes, i) && t.labels.Keys == {};
    var m := Main(P, i);
    SplitTargets(P, w, i);
    NoUses(t.nodes, |t.nodes|);
    var ds := t.owner.defs["_"];
    var j :| 0 <= j < |ds| && ds[j] == Size(P, i) + 1;
    assert LedTo(t, t.nodes[m].d2, "_", j);
    assert PassedOn(c.nodes, t, c.nodes[m].d2, "_", j);
  }

  lemma LineFeeds(P: seq<T.Line>, w: Spelling, c: Circuit, t: Table, i: nat)
    requires TableIs(P, w, |P|, t) && Spells(w, P) && T.SingleDefs(P) && i < |P|
    requires AllWired(c.nodes, t) && SplitsWired(c.nodes, t) && |t.nodes| <= |c.nodes|
    ensures Main(P, i) < |c.nodes| && OutputsFeed(P, c.nodes, Main(P, i), P[i])
  {
    hide TableIs, Spells, FeedsName, AllWired, SplitsWired, Main, T.SingleDefs, BothReach, Reached;
    OwnTexts(P, w, i);
    MainFits(P, w, t, i);
    match P[i]
    case Branch(a, f, _, _) =>
      SplitFeeds(P, w, c, t, i, a);
      if f.Some? { SplitFeeds(P, w, c, t, i, f.value); } else {
        MissingFeeds(P, w, c, t, i);
        assert FeedsName(P, [], None) by { NoNameFeeds(P); }
      }
    case NewTag(a, b, _) =>
      SplitFeeds(P, w, c, t, i, a);
      SplitFeeds(P, w, c, t, i, b);
    case Output(_) =>
    case _ => PlainFeeds(P, w, c, t, i);
  }

  lemma NoNameFeeds(P: seq<T.Line>)
    ensures FeedsName(P, [], None)
  {
  }

  lemma MainFits(P: seq<T.Line>, w: Spelling, t: Table, i: nat)
    requires TableIs(P, w, |P|, t) && i < |P|
    ensures Main(P, i) < |t.nodes|
  {
    assert NodesOf(P, w, t.nodes, i);
  }

  lemma LineNode(P: seq<T.Line>, w: Spelling, nodes: seq<Node>, t: Table, i: nat)
    requires TableIs(P, w, |P|, t) && SameNodes(nodes, t) && i < |P|
    ensures var m := Main(P, i);
      && m < |t.nodes| <= |nodes| && nodes[m].op == NodeOpOf(P[i]) && nodes[m].in1 == LiteralArg(P[i])
      && nodes[m].in2 == NoArg && !nodes[m].optimizable && !IsDup(t.nodes[m])
  {
    hide FO.Fixed, LiteralArg, NodeOpOf, ActionOf, Defines, DefsOf;
    assert NodesOf(P, w, t.nodes, i) && t.labels.Keys == {};
    var m := Main(P, i);
    FixedMain(P[i], w, m);
    assert nodes[m] == FO.Fixed(t.nodes[m], {}).(d1 := nodes[m].d1, d2 := nodes[m].d2);
    NotOptimizable(P[i], w, m);
  }

  lemma NotOptimizable(l: T.Line, w: Spelling, n: nat)
    requires IsSplit(l) ==> n >= 2
    ensures !MainNode(ActionOf(l, w), n).optimizable
  {
  }

  lemma OtherNode(P: seq<T.Line>, w: Spelling, nodes: seq<Node>, t: Table, n: nat)
    requires TableIs(P, w, |P|, t) && SameNodes(nodes, t) && n < |nodes|
    ensures IsMain(P, n) || (IsDup(nodes[n]) && nodes[n].in1 == nodes[n].in2 == NoArg)
  {
    hide Defines, DefsOf, ActionOf;
    if n < |t.nodes| {
      var i := LineOf(P, |P|, n);
      assert NodesOf(P, w, t.nodes, i);
      if n != Main(P, i) { assert nodes[n] == FO.Fixed(DUP_NODE, {}).(d1 := nodes[n].d1, d2 := nodes[n].d2); }
    }
  }

  lemma EdgeAtSlot(P: seq<T.Line>, w: Spelling, nodes: seq<Node>, t: Table, e: Dest)
    requires TableIs(P, w, |P|, t) && Spells(w, P) && SameNodes(nodes, t) && EdgesNamed(nodes, t)
    requires IsEdge(nodes, e) && Solid(nodes, e)
    ensures IsSlot(P, e)
  {
    hide SameNodes, FO.Named, ActionOf, G.Ports, Defines, DefsOf, Spells;
    assert t.labels.Keys == {} && NamedSlot(t, e);
    var i := LineOf(P, |P|, e.node);
    assert NodesOf(P, w, t.nodes, i);
    DupHasNoNames();
    ArgsAre(P, w, i);
    var port := if e.input == INPUT_ONE then 0 else 1;
    assert e == Slot(P, i, port);
  }

  // What the assembler builds from a compiled program is a circuit of it.
  lemma BuiltImplements(P: seq<T.Line>, w: Spelling, c: Circuit)
    requires T.SingleDefs(P) && Spells(w, P) && BuiltFrom(Rows(P, w), c)
    ensures Implements(P, c)
  {
    hide IsSlot, T.SingleDefs, Spells, Tidy, AllWired, SameNodes, SplitsWired, EdgesNamed, Complete, TableIs, TableOf, OutputsFeed, IsMain, NodeOpOf, LiteralArg;
    var rows := Rows(P, w);
    var t := TableOf(rows, |rows|);
    RowsParse(P, w, |P|);
    assert t.labels == map[] && |t.nodes| <= |c.nodes| by { TableSmall(P, w, c.nodes, t); }
    forall i | 0 <= i < |P|
      ensures LineBuilt(P, c, i)
    {
      LineFeeds(P, w, c, t, i);
      LineNode(P, w, c.nodes, t, i);
      var m := Main(P, i);
      assert m in c.left;
    }
    forall e | IsEdge(c.nodes, e) && Solid(c.nodes, e) ensures IsSlot(P, e) { EdgeAtSlot(P, w, c.nodes, t, e); }
    forall n | 0 <= n < |c.nodes|
      ensures IsMain(P, n) || (IsDup(c.nodes[n]) && c.nodes[n].in1 == c.nodes[n].in2 == NoArg)
    {
      OtherNode(P, w, c.nodes, t, n);
    }
    forall n | 0 <= n < |c.nodes| && IsDup(c.nodes[n])
      ensures c.nodes[n].in1 == c.nodes[n].in2 == NoArg
    {
      if IsMain(P, n) { MainNotDup(P, w, c.nodes, t, n); }
    }
  }

  lemma TableSmall(P: seq<T.Line>, w: Spelling, nodes: seq<Node>, t: Table)
    requires TableIs(P, w, |P|, t) && SameNodes(nodes, t)
    ensures t.labels == map[] && |t.nodes| <= |nodes|
  {
  }

  lemma MainNotDup(P: seq<T.Line>, w: Spelling, nodes: seq<Node>, t: Table, n: nat)
    requires TableIs(P, w, |P|, t) && SameNodes(nodes, t) && IsMain(P, n)
    ensures n < |nodes| && !nodes[n].optimizable
  {
    hide TableIs, SameNodes;
    var i :| 0 <= i < |P| && Main(P, i) == n;
    LineNode(P, w, nodes, t, i);
  }

  // ---- The second output is always marked ----

  ghost predicate SecondsMarked(c: Circuit) {
    forall k :: 0 <= k < |c.order| && k < |c.insts| && c.order[k] < |c.nodes| ==> (c.Program()[k].both <==> c.nodes[c.order[k]].d2.Some?)
  }

  // No edge leads to a literal.
  lemma NoEdgeToLiteral(P: seq<T.Line>, c: Circuit, e: Dest)
    requires Implements(P, c) && IsEdge(c.nodes, e) && |P| > 0 && P[0].Literal?
    ensures e.node != 0
  {
    hide Complete, NodeOpOf, LiteralArg, OutputsFeed;
    EdgeInside(c.nodes, e);
    if e.node == 0 {
      assert LineBuilt(P, c, 0) && Main(P, 0) == 0;
      var i: nat, port: nat :| i < |P| && port < |G.Ports(P[i])| && e == Slot(P, i, port);
      MainsDiffer(P, i, 0);
      assert false;
    }
  }

  lemma EdgeInside(nodes: seq<Node>, e: Dest)
    requires Tidy(nodes) && IsEdge(nodes, e)
    ensures e.node < |nodes| && IsInput(e.input)
  {
    hide IsInput;
    var n :| 0 <= n < |nodes| && HasEdge(nodes[n], e);
    assert Onward(nodes, n, nodes[n].d1) && Onward(nodes, n, nodes[n].d2);
  }

  // The word 0, which would count as a missing second output, is that of the literal a compiled
  // program begins with.
  lemma AllMarked(P: seq<T.Line>, c: Circuit)
    requires Implements(P, c) && |P| > 0 && P[0].Literal? && c.left != [] && c.left[0] == 0
    ensures SecondsMarked(c)
  {
    hide NodeOpOf, LiteralArg, OutputsFeed, Matching, Serialized, EdgesEndAtSlots, Placeable, RoomAt, IsSettled;
    FirstIsPlaced(P, c);
    forall k | 0 <= k < |c.order| && k < |c.insts| && c.order[k] < |c.nodes|
      ensures c.Program()[k].both <==> c.nodes[c.order[k]].d2.Some?
    {
      MarkedAt(P, c, k);
    }
  }

  lemma FirstIsPlaced(P: seq<T.Line>, c: Circuit)
    requires Implements(P, c) && |P| > 0 && P[0].Literal? && c.left != [] && c.left[0] == 0
    ensures c.order != [] && c.order[0] == 0
  {
    hide Complete, OutputsFeed;
    assert LineBuilt(P, c, 0) && Main(P, 0) == 0;
  }

  lemma MarkedAt(P: seq<T.Line>, c: Circuit, k: nat)
    requires Implements(P, c) && |P| > 0 && P[0].Literal? && c.order != [] && c.order[0] == 0
    requires k < |c.order| && k < |c.insts| && c.order[k] < |c.nodes|
    ensures c.Program()[k].both <==> c.nodes[c.order[k]].d2.Some?
  {
    hide LineBuilt, Placeable, Matching, TargetWord, RoomAt, IsSettled, EdgesEndAtSlots;
    var node := c.nodes[c.order[k]];
    assert Done(c.nodes, c.labels, c.order, c.idx, c.insts, k);
    if node.d2.Some? {
      var e := node.d2.value;
      assert HasEdge(c.nodes[c.order[k]], e);
      NoEdgeToLiteral(P, c, e);
      if c.nodes[e.node].op.Op? {
        SecondOutputMarked(c.nodes, c.labels, c.left, c.order, c.idx, c.insts, k, e);
        assert c.order[c.idx[e.node]] == e.node;
      } else {
        SpecialWords(c.nodes, c.idx, e);
      }
    }
  }

  lemma SpecialWords(nodes: seq<Node>, idx: Index, e: Dest)
    requires e.node < |nodes| && !nodes[e.node].op.Op?
    ensures TargetWord(nodes, idx, e) != 0
  {
  }
}
