// What the instruction store and the function unit do with the tokens of an assembled program:
// added DUPs pass them on, the other instructions fire their lines.
module Firing {
  import opened Words
  import T = Tass
  import G = TokenGame
  import opened Types
  import opened Numbers
  import M = Machine
  import E = Encoding
  import opened IrGraph
  import opened Optimize
  import opened Wiring
  import opened Placement
  import opened Assembled
  import opened Rendering
  import opened Circuit
  import opened Typing
  import opened Compiled
  import opened Wires

  // ---- Several wires ----

  function BitsAll(u: Setup, ws: seq<Wire>): (r: seq<Types.Token>)
    ensures |r| == |ws|
  {
    seq(|ws|, k requires 0 <= k < |ws| => Bits(u, ws[k]))
  }

  function HeldAll(u: Setup, ws: seq<Wire>): multiset<G.Arrival> {
    if ws == [] then multiset{} else Held(u, ws[0]) + HeldAll(u, ws[1..])
  }

  ghost predicate WiresOk(c: Circuit, ws: seq<Wire>) {
    forall k :: 0 <= k < |ws| ==> WireOk(c, ws[k])
  }

  lemma OneHeld(u: Setup, a: Wire)
    ensures HeldAll(u, [a]) == Held(u, a)
  {
    hide Held;
    assert [a][1..] == [];
  }

  lemma TwoHeld(u: Setup, a: Wire, b: Wire)
    ensures HeldAll(u, [a, b]) == Held(u, a) + Held(u, b)
  {
    hide Held;
    assert [a, b][1..] == [b];
    OneHeld(u, b);
  }

  // ---- The instruction of a node ----

  lemma InstructionIs(u: Setup, n: nat)
    requires Implements(u.P, u.c) && SecondsMarked(u.c) && n in u.c.idx
    ensures n < |u.c.nodes| && u.c.nodes[n].op.Op? && u.c.idx[n] < |u.c.insts|
    ensures var node := u.c.nodes[n];
      u.c.Program()[u.c.idx[n]] == Instruction(node.op.op, EdgeWordOf(u.c, node.d1), EdgeWordOf(u.c, node.d2), node.d2.Some?,
                                               LiteralOf(node.in1), 0, if node.in1.NoArg? then NONE else ONE)
    ensures u.c.nodes[n].d1.Some? ==> EdgeOk(u.c, u.c.nodes[n].d1.value)
    ensures u.c.nodes[n].d2.Some? ==> EdgeOk(u.c, u.c.nodes[n].d2.value)
  {
    hide Tidy, EdgesEndAtSlots, StartsWith, TargetWord, LiteralArg, NodeOpOf, OutputsFeed, Placeable, RoomAt, IsSettled;
    var c := u.c;
    var k, node := c.idx[n], c.nodes[n];
    assert Done(c.nodes, c.labels, c.order, c.idx, c.insts, k);
    ArgsOf(u, n);
    if node.d1.Some? { assert EdgeOf(c.nodes, c.order, k, node.d1.value); }
    if node.d2.Some? { assert EdgeOf(c.nodes, c.order, k, node.d2.value); }
    SerializedIs(c, k, node);
  }

  lemma SerializedIs(c: Circuit, k: nat, node: Node)
    requires SecondsMarked(c) && k < |c.order| == |c.insts| && c.order[k] < |c.nodes| && node == c.nodes[c.order[k]]
    requires node.op.Op? && Reaches(c.nodes, c.labels, c.idx, node) && c.insts[k] == Placement.Final(c.nodes, c.labels, c.idx, node)
    requires !node.in1.Ref? && node.in2 == NoArg
    ensures c.Program()[k] == Instruction(node.op.op, EdgeWordOf(c, node.d1), EdgeWordOf(c, node.d2), node.d2.Some?,
                                          LiteralOf(node.in1), 0, if node.in1.NoArg? then NONE else ONE)
  {
    hide TargetWord;
    assert c.Program()[k].both <==> c.nodes[c.order[k]].d2.Some?;
  }

  // The literal that is left, if any, is the first argument.
  lemma ArgsOf(u: Setup, n: nat)
    requires Implements(u.P, u.c) && n < |u.c.nodes|
    ensures !u.c.nodes[n].in1.Ref? && u.c.nodes[n].in2 == NoArg
  {
    hide Tidy, Complete, EdgesEndAtSlots, OutputsFeed;
    if !IsDup(u.c.nodes[n]) {
      var i :| 0 <= i < |u.P| && Main(u.P, i) == n;
      assert LineBuilt(u.P, u.c, i);
    }
  }

  // The packet of node n.
  function PacketAt(u: Setup, n: nat, data1: Data, data2: Data, tag: TagBits): Packet
    requires n < |u.c.nodes| && u.c.nodes[n].op.Op? && n in u.c.idx
  {
    var node := u.c.nodes[n];
    Packet(data1, data2, node.op.op, tag, EdgeWordOf(u.c, node.d1), EdgeWordOf(u.c, node.d2),
           CreateDestination(Word(u.c.idx[n]), 0, 0), node.d2.Some?)
  }

  // On an edge to an instruction.
  ghost predicate Heads(u: Setup, w: Wire) {
    && w.edge.Some? && EdgeOk(u.c, w.edge.value) && w.edge.value.node < |u.c.nodes|
    && u.c.nodes[w.edge.value.node].op.Op?
  }

  lemma HeadsPlaced(u: Setup, w: Wire)
    requires Implements(u.P, u.c) && Heads(u, w)
    ensures w.edge.value.node in u.c.idx
    ensures var d := Bits(u, w).destination; var n := w.edge.value.node;
      && Number(Address(d)) == u.c.idx[n] < |u.c.Program()| && Address(d) == Word(u.c.idx[n])
      && InputOf(d) == w.edge.value.input && MatchingOf(d) == Matching(u.c.nodes[n]) && !Reserved(Address(d))
  {
    hide Implements, EdgeOk, TargetWord, Number, Word, Address, InputOf, MatchingOf, Matching, Reserved;
    PlacedEdge(u, w.edge.value);
  }

  lemma DispatchSingle(u: Setup, w: Wire, stale: Types.Token)
    requires Implements(u.P, u.c) && SecondsMarked(u.c) && Heads(u, w)
    requires Matching(u.c.nodes[w.edge.value.node]) != MATCHING_BOTH
    ensures w.edge.value.node in u.c.idx
    ensures var n := w.edge.value.node;
      M.Dispatch(u.c.Program(), M.Single(Bits(u, w)), stale)
        == Some(PacketAt(u, n, u.Layout().WordBits(w.word), LiteralOf(u.c.nodes[n].in1), u.Layout().TagBits(w.tag)))
  {
    hide Implements, SecondsMarked, EdgeOk, EdgeWordOf, Number, Word, Address, InputOf, MatchingOf, Reserved, CreateDestination, EdgesEndAtSlots;
    HeadsPlaced(u, w);
    InstructionIs(u, w.edge.value.node);
    MatchesOne(u, w);
  }

  // The matching function and what the instruction store will do.
  lemma MatchesOne(u: Setup, w: Wire)
    requires Implements(u.P, u.c) && SecondsMarked(u.c) && Heads(u, w) && w.edge.value.node in u.c.idx
    ensures u.c.idx[w.edge.value.node] < |u.c.Program()|
    ensures Matching(u.c.nodes[w.edge.value.node]) == MATCHING_BOTH <==> M.TakesTwo(u.c.Program()[u.c.idx[w.edge.value.node]])
    ensures !M.TakesTwo(u.c.Program()[u.c.idx[w.edge.value.node]]) ==>
      var i := u.c.Program()[u.c.idx[w.edge.value.node]]; i.literals == ONE || NumInputs(i.opcode) == 1
  {
    hide Implements, SecondsMarked, EdgeOk, EdgeWordOf, Matching;
    var n := w.edge.value.node;
    InstructionIs(u, n);
    ArgsOf(u, n);
    MatchingIs(u.c.nodes[n]);
  }

  lemma MatchingIs(n: Node)
    requires n.op.Op? && n.in2 == NoArg
    ensures Matching(n) == MATCHING_BOTH <==> n.in1.NoArg? && NumInputs(n.op.op) == 2
    ensures NumInputs(n.op.op) == 1 || NumInputs(n.op.op) == 2
  {
  }

  lemma DispatchBoth(u: Setup, l: Wire, r: Wire, stale: Types.Token)
    requires Implements(u.P, u.c) && SecondsMarked(u.c) && Heads(u, l)
    requires Matching(u.c.nodes[l.edge.value.node]) == MATCHING_BOTH
    ensures l.edge.value.node in u.c.idx
    ensures var n := l.edge.value.node;
      M.Dispatch(u.c.Program(), M.Both(Bits(u, l), Bits(u, r)), stale)
        == Some(PacketAt(u, n, u.Layout().WordBits(l.word), u.Layout().WordBits(r.word), u.Layout().TagBits(l.tag)))
  {
    hide Implements, SecondsMarked, EdgeOk, EdgeWordOf, Number, Word, Address, InputOf, MatchingOf, Reserved, CreateDestination, EdgesEndAtSlots;
    HeadsPlaced(u, l);
    InstructionIs(u, l.edge.value.node);
    MatchesOne(u, l);
  }

  // ---- One result to all outputs ----

  function ToBoth(node: Node, tag: T.Tag, word: T.Word): seq<Wire> {
    if node.d2.Some? then [Wire(node.d1, tag, word), Wire(node.d2, tag, word)] else [Wire(node.d1, tag, word)]
  }

  lemma ReachedHeld(u: Setup, e: Option<Dest>, tag: T.Tag, word: T.Word)
    ensures Held(u, Wire(e, tag, word)) == multiset(Arrivals(u.P, Reached(u.c.nodes, e), tag, word))
  {
    hide ArrivalAt, Leaves;
  }

  lemma ToBothHeld(u: Setup, n: nat, tag: T.Tag, word: T.Word)
    requires n < |u.c.nodes|
    ensures HeldAll(u, ToBoth(u.c.nodes[n], tag, word)) == multiset(Arrivals(u.P, BothReach(u.c.nodes, n), tag, word))
  {
    hide ArrivalAt, Leaves, Held, HeldAll, Arrivals;
    var node := u.c.nodes[n];
    ReachedHeld(u, node.d1, tag, word);
    ReachedHeld(u, node.d2, tag, word);
    ArrivalsAppend(u.P, Reached(u.c.nodes, node.d1), Reached(u.c.nodes, node.d2), tag, word);
    OneHeld(u, Wire(node.d1, tag, word));
    TwoHeld(u, Wire(node.d1, tag, word), Wire(node.d2, tag, word));
    if node.d2.None? { assert Reached(u.c.nodes, node.d1) + [] == Reached(u.c.nodes, node.d1); }
  }

  lemma ToBothOk(u: Setup, n: nat, tag: T.Tag, word: T.Word)
    requires Implements(u.P, u.c) && SecondsMarked(u.c) && n in u.c.idx
    ensures n < |u.c.nodes| && WiresOk(u.c, ToBoth(u.c.nodes[n], tag, word))
  {
    hide Implements, SecondsMarked, EdgeOk;
    InstructionIs(u, n);
  }

  // A DUP of the assembler passes its token on to where the token was to arrive anyway.
  lemma PassOn(u: Setup, w: Wire)
    requires Implements(u.P, u.c) && SecondsMarked(u.c) && Heads(u, w) && IsDup(u.c.nodes[w.edge.value.node])
    ensures w.edge.value.node in u.c.idx
    ensures var n := w.edge.value.node; var out := ToBoth(u.c.nodes[n], w.tag, w.word);
      var p := PacketAt(u, n, u.Layout().WordBits(w.word), LiteralOf(u.c.nodes[n].in1), u.Layout().TagBits(w.tag));
      && M.FunctionUnit(p, u.areas(p.input, p.tag)) == BitsAll(u, out)
      && HeldAll(u, out) == Held(u, w) && WiresOk(u.c, out)
    ensures Matching(u.c.nodes[w.edge.value.node]) != MATCHING_BOTH
  {
    hide Complete, LineBuilt, IsMain, EdgesEndAtSlots, SecondsMarked, EdgeOk, EdgeWordOf, Held, HeldAll, Arrivals, BothReach, Leaves, StartsWith;
    hide E.Layout.WordBits, E.Layout.TagBits, CreateDestination;
    var e := w.edge.value;
    HeadsPlaced(u, w);
    ToBothHeld(u, e.node, w.tag, w.word);
    ToBothOk(u, e.node, w.tag, w.word);
    DupReach(u.c.nodes, e);
    WireHeld(u, w);
    DupMatches(u.c.nodes[e.node]);
  }

  lemma DupMatches(n: Node)
    requires IsDup(n)
    ensures Matching(n) != MATCHING_BOTH
  {
  }

  lemma WireHeld(u: Setup, w: Wire)
    requires w.edge.Some?
    ensures Held(u, w) == multiset(Arrivals(u.P, Leaves(u.c.nodes, w.edge.value), w.tag, w.word))
  {
  }

  // ---- Firing a line ----

  // The packet with which line i fires on ins.
  ghost function FiringPacket(u: Setup, i: nat, ins: T.Inputs): Packet
    requires i < |u.P| && !u.P[i].Output? && Implements(u.P, u.c)
  {
    LineIs(u, i);
    PacketAt(u, Main(u.P, i), E.Data1(u.Layout(), u.P[i], ins), E.Data2(u.Layout(), u.P[i], ins), u.Layout().TagBits(E.TagOf(ins)))
  }

  lemma LineIs(u: Setup, i: nat)
    requires i < |u.P| && Implements(u.P, u.c)
    ensures var m := Main(u.P, i);
      && m < |u.c.nodes| && u.c.nodes[m].op == NodeOpOf(u.P[i]) && u.c.nodes[m].in1 == LiteralArg(u.P[i])
      && !u.c.nodes[m].optimizable && OutputsFeed(u.P, u.c.nodes, m, u.P[i])
    ensures !u.P[i].Output? ==> Main(u.P, i) in u.c.idx && u.c.nodes[Main(u.P, i)].op == Op(E.OpcodeOf(u.P[i]))
  {
    hide Complete, Tidy, EdgesEndAtSlots, LiteralArg, OutputsFeed, E.OpcodeOf;
    assert LineBuilt(u.P, u.c, i);
  }

  // Every operand is of its kind.
  lemma InputsPlain(u: Setup, i: nat, ins: T.Inputs)
    requires IsTyped(u.P) && i < |u.P| && T.Matched(u.P[i], ins) && T.Within(ins, Known(u.P))
    ensures E.Plain(u.P[i], ins)
  {
    hide Tokens, E.CountBits;
    var K: set<T.Name> :| Typed(u.P, K);
    assert u.P[i] in u.P && WellTyped(K, u.P[i]);
    if !ins.Nothing? { TokensTyped(u.P, K, ins.x); }
    if ins.Two? { TokensTyped(u.P, K, ins.y); }
  }

  lemma OneToken(l: T.Line, ins: T.Inputs) returns (tok: T.Token)
    requires E.OneResult(l) && T.Matched(l, ins) && E.Plain(l, ins)
    ensures T.Emit(l, ins) == {tok} && tok.name == l.out
  {
    tok := match l
      case Literal(out, v) => T.Token(out, T.NO_TAG, T.Num(v))
      case Binary(out, op, _, _) => T.Token(out, ins.x.tag, T.ComputeWord(op, ins.x.word, ins.y.word))
      case CopyTag(out, _, _) => T.Token(out, ins.x.word.tag, ins.y.word)
      case CopyTagLit(out, _, v) => T.Token(out, ins.x.word.tag, T.Num(v))
      case NextIter(out, _) => T.Token(out, T.Tag(ins.x.tag.area, ins.x.tag.iter + 1), ins.x.word)
      case ResetIter(out, _) => T.Token(out, T.Tag(ins.x.tag.area, 0), ins.x.word)
      case ReadTag(out, _) => T.Token(out, ins.x.tag, T.TagWord(ins.x.tag))
      case Copy(out, _) => T.Token(out, ins.x.tag, ins.x.word)
      case Merge(out, _, _) => T.Token(out, ins.x.tag, ins.x.word);
  }

  lemma FireOneResult(u: Setup, i: nat, ins: T.Inputs) returns (out: seq<Wire>)
    requires Sound(u) && i < |u.P| && E.OneResult(u.P[i]) && T.Matched(u.P[i], ins) && E.Plain(u.P[i], ins)
    ensures var p := FiringPacket(u, i, ins);
      M.FunctionUnit(p, u.areas(p.input, p.tag)) == BitsAll(u, out)
    ensures HeldAll(u, out) == multiset(G.Deliveries(u.P, T.Emit(u.P[i], ins))) && WiresOk(u.c, out)
  {
    hide Implements, SecondsMarked, EdgeOk, EdgeWordOf, Held, HeldAll, Arrivals, BothReach, Leaves, Regular, FeedsName;
    hide E.Layout.WordBits, E.Layout.TagBits, CreateDestination, M.FunctionUnit, E.Data1, E.Data2, G.Deliveries, T.Emit, E.OpcodeOf;
    var l, m, y := u.P[i], Main(u.P, i), u.Layout();
    LineIs(u, i);
    var tok := OneToken(l, ins);
    out := ToBoth(u.c.nodes[m], tok.tag, tok.word);
    ToBothOk(u, m, tok.tag, tok.word);
    ToBothHeld(u, m, tok.tag, tok.word);
    FeedDelivers(u.P, BothReach(u.c.nodes, m), l.out, tok.tag, tok.word);
    var p := FiringPacket(u, i, ins);
    E.OneResultAgrees(y, l, ins, p.destination1, p.destination2, p.input, p.both, tok);
  }

  lemma FireBranch(u: Setup, i: nat, ins: T.Inputs) returns (out: seq<Wire>)
    requires Sound(u) && i < |u.P| && u.P[i].Branch? && T.Matched(u.P[i], ins) && E.Plain(u.P[i], ins)
    ensures var p := FiringPacket(u, i, ins);
      M.FunctionUnit(p, u.areas(p.input, p.tag)) == BitsAll(u, out)
    ensures HeldAll(u, out) == multiset(G.Deliveries(u.P, T.Emit(u.P[i], ins))) && WiresOk(u.c, out)
  {
    hide Implements, SecondsMarked, EdgeOk, EdgeWordOf, Held, HeldAll, Arrivals, Leaves, Regular, FeedsName, Reached;
    hide E.Layout.WordBits, E.Layout.TagBits, CreateDestination, M.FunctionUnit, G.Deliveries, T.Emit;
    var l, m, y := u.P[i], Main(u.P, i), u.Layout();
    LineIs(u, i);
    InstructionIs(u, m);
    var p := FiringPacket(u, i, ins);
    E.BranchAgrees(y, l, ins, p.destination1, p.destination2, p.input, p.both);
    var taken := T.IsTrue(ins.y.word);
    var e := if taken then u.c.nodes[m].d1 else u.c.nodes[m].d2;
    var w := Wire(e, ins.x.tag, ins.x.word);
    out := [w];
    OneHeld(u, w);
    ReachedHeld(u, e, ins.x.tag, ins.x.word);
    if taken {
      FeedDelivers(u.P, Reached(u.c.nodes, e), l.onTrue, ins.x.tag, ins.x.word);
    } else if l.onFalse.Some? {
      FeedDelivers(u.P, Reached(u.c.nodes, e), l.onFalse.value, ins.x.tag, ins.x.word);
    } else {
      NothingFed(u.P, Reached(u.c.nodes, e), ins.x.tag, ins.x.word);
    }
  }

  lemma NothingFed(P: seq<T.Line>, ds: seq<Dest>, tag: T.Tag, word: T.Word)
    requires FeedsName(P, ds, None)
    ensures multiset(Arrivals(P, ds, tag, word)) == multiset(G.Deliveries(P, {}))
  {
  }

  lemma FireNewTag(u: Setup, i: nat, ins: T.Inputs) returns (out: seq<Wire>)
    requires Sound(u) && i < |u.P| && u.P[i].NewTag? && T.Matched(u.P[i], ins)
    ensures var p := FiringPacket(u, i, ins);
      M.FunctionUnit(p, u.areas(p.input, p.tag)) == BitsAll(u, out)
    ensures HeldAll(u, out) == multiset(G.Deliveries(u.P, T.Emit(u.P[i], ins))) && WiresOk(u.c, out)
  {
    hide Implements, SecondsMarked, EdgeOk, EdgeWordOf, Held, HeldAll, Arrivals, Leaves, Regular, FeedsName, Reached;
    hide E.Layout.WordBits, E.Layout.TagBits, CreateDestination, M.FunctionUnit, G.Deliveries, T.NewTagWord;
    var l, m, y, c := u.P[i], Main(u.P, i), u.Layout(), u.c;
    LineIs(u, i);
    InstructionIs(u, m);
    SiteIs(u.P, c, |u.P|, i);
    var p := FiringPacket(u, i, ins);
    E.NewTagAgrees(y, l, ins, p.destination1, p.destination2, p.both);
    var t := ins.x.tag;
    var a, b := Wire(c.nodes[m].d1, t, T.NewTagWord(l.newTag, t)), Wire(c.nodes[m].d2, t, T.TagWord(t));
    out := [a, b];
    TwoHeld(u, a, b);
    ReachedHeld(u, a.edge, t, a.word);
    ReachedHeld(u, b.edge, t, b.word);
    FeedDelivers(u.P, Reached(c.nodes, a.edge), l.newTag, t, a.word);
    FeedDelivers(u.P, Reached(c.nodes, b.edge), l.oldTag, t, b.word);
    assert l in u.P && l.newTag != l.oldTag;
    TwoDeliveries(u.P, T.Token(l.newTag, t, a.word), T.Token(l.oldTag, t, b.word));
  }

  lemma TwoDeliveries(P: seq<T.Line>, a: T.Token, b: T.Token)
    requires a.name != b.name
    ensures multiset(G.Deliveries(P, {a, b})) == multiset(G.Deliveries(P, {a})) + multiset(G.Deliveries(P, {b}))
  {
    assert G.Deliveries(P, {a, b}) == G.Deliveries(P, {a}) + G.Deliveries(P, {b});
    assert G.Deliveries(P, {a}) !! G.Deliveries(P, {b});
  }

  // Whatever line fires, its instruction sends the tokens the line stands for.
  lemma Fire(u: Setup, i: nat, ins: T.Inputs) returns (out: seq<Wire>)
    requires Sound(u) && i < |u.P| && !u.P[i].Output? && T.Matched(u.P[i], ins) && T.Within(ins, Known(u.P))
    ensures var p := FiringPacket(u, i, ins);
      M.FunctionUnit(p, u.areas(p.input, p.tag)) == BitsAll(u, out)
    ensures HeldAll(u, out) == multiset(G.Deliveries(u.P, T.Emit(u.P[i], ins))) && WiresOk(u.c, out)
  {
    hide T.Matched, T.Within, E.Plain, T.Emit, M.FunctionUnit, FiringPacket, HeldAll, Implements, Regular, SecondsMarked;
    InputsPlain(u, i, ins);
    match u.P[i]
    case Branch(_, _, _, _) => out := FireBranch(u, i, ins);
    case NewTag(_, _, _) => out := FireNewTag(u, i, ins);
    case _ => out := FireOneResult(u, i, ins);
  }
}
