// An assembled program in the machine: destination words lead to the instructions of their nodes,
// and the matching unit and the instruction store agree about them.
module Assembled {
  import opened Words
  import opened Numbers
  import opened Types
  import opened IrGraph
  import opened Placement
  import M = Machine

  function LiteralOf(a: Arg): Data {
    if a.Literal? then a.n else 0
  }

  // serialize_instructions: the second output is marked only if its word is not 0.
  function Serialized(p: Placed): Instruction {
    Instruction(p.op, if p.d1.Some? then p.d1.value else DEV_NULL, if p.d2.Some? then p.d2.value else DEV_NULL,
                p.d2.Some? && p.d2.value != 0, LiteralOf(p.literal1), LiteralOf(p.literal2),
                if p.literal1.NoArg? then (if p.literal2.NoArg? then NONE else ONE)
                else if p.literal2.NoArg? then ONE else TWO)
  }

  function Program(insts: seq<Placed>): (program: seq<Instruction>)
    ensures |program| == |insts|
  {
    seq(|insts|, k requires 0 <= k < |insts| => Serialized(insts[k]))
  }

  // A literal of a node with two inputs is its first argument.
  predicate IsSettled(n: Node) {
    Inputs(n.op) == 2 && n.in1.NoArg? ==> n.in2.NoArg?
  }

  // A node with an edge to it has an input left for it.
  predicate HasRoom(n: Node) {
    Inputs(n.op) == 2 ==> n.in1.NoArg? || n.in2.NoArg?
  }

  ghost predicate Complete(nodes: seq<Node>, labels: Labels, live: seq<nat>, order: seq<nat>, idx: Index, insts: seq<Placed>) {
    && Placeable(nodes, labels, live) && Finished(nodes, labels, order, idx, insts, |order|)
    && (forall n :: 0 <= n < |nodes| ==> IsSettled(nodes[n]))
    && forall n :: 0 <= n < |nodes| ==> RoomAt(nodes, nodes[n].d1) && RoomAt(nodes, nodes[n].d2)
  }

  ghost predicate RoomAt(nodes: seq<Node>, e: Option<Dest>) {
    e.Some? && e.value.node < |nodes| ==> HasRoom(nodes[e.value.node])
  }

  // An edge of the k-th placed node.
  ghost predicate EdgeOf(nodes: seq<Node>, order: seq<nat>, k: nat, e: Dest) {
    k < |order| && order[k] < |nodes| && (nodes[order[k]].d1 == Some(e) || nodes[order[k]].d2 == Some(e))
  }

  // ---- Addresses fit ----

  lemma {:induction false} FewEnough(q: seq<nat>, n: nat)
    requires (forall i, j :: 0 <= i < j < |q| ==> q[i] != q[j]) && forall i :: 0 <= i < |q| ==> q[i] < n
    ensures |q| <= n
    decreases n
  {
    if q == [] { return; }
    assert q[0] < n;
    if n - 1 in q {
      var k :| 0 <= k < |q| && q[k] == n - 1;
      var rest := q[..k] + q[k + 1..];
      forall i | 0 <= i < |rest| ensures rest[i] < n - 1 { assert rest[i] == q[if i < k then i else i + 1]; }
      FewEnough(rest, n - 1);
    } else {
      forall i | 0 <= i < |q| ensures q[i] < n - 1 { assert q[i] in q; }
      FewEnough(q, n - 1);
    }
  }

  lemma IndexFits(nodes: seq<Node>, order: seq<nat>, idx: Index, n: nat)
    requires Indexed(nodes, order, idx) && n in idx
    ensures idx[n] < |order| <= |nodes|
  {
    forall i, j | 0 <= i < j < |order| ensures order[i] != order[j] { assert idx[order[i]] == i && idx[order[j]] == j; }
    FewEnough(order, |nodes|);
  }

  // ---- Words lead to their nodes ----

  lemma Decodes(nodes: seq<Node>, labels: Labels, live: seq<nat>, order: seq<nat>, idx: Index, insts: seq<Placed>, k: nat, e: Dest)
    requires Complete(nodes, labels, live, order, idx, insts) && EdgeOf(nodes, order, k, e)
    ensures IsPlaced(nodes, idx, e.node)
    ensures nodes[e.node].op.Op? ==>
      var w := TargetWord(nodes, idx, e);
      && Number(Address(w)) == idx[e.node] < |insts|
      && InputOf(w) == e.input && MatchingOf(w) == Matching(nodes[e.node])
      && !Reserved(Address(w))
  {
    hide Placeable, Final, Word, Number, Address, InputOf, MatchingOf, CreateDestination, Matching, Reserved;
    assert Done(nodes, labels, order, idx, insts, k);
    EdgeInGraph(nodes, labels, live, order[k], e);
    if nodes[e.node].op.Op? {
      IndexFits(nodes, order, idx, e.node);
      var i := idx[e.node];
      AddressOfWord(i);
      MatchingFits(nodes[e.node]);
      DestinationRoundTrip(Word(i), e.input, Matching(nodes[e.node]));
      NotReserved(i);
    }
  }

  lemma EdgeInGraph(nodes: seq<Node>, labels: Labels, live: seq<nat>, n: nat, e: Dest)
    requires Placeable(nodes, labels, live) && n < |nodes| && (nodes[n].d1 == Some(e) || nodes[n].d2 == Some(e))
    ensures e.node < |nodes| <= 0xFFF_FFFB && e.input < 2
  {
    assert InGraph(nodes, nodes[n].d1) && InGraph(nodes, nodes[n].d2);
    InputFits(e.input);
  }

  lemma InputFits(i: bv32)
    requires IsInput(i)
    ensures i < 2
  {
  }

  lemma MatchingFits(n: Node)
    ensures Matching(n) < 4
  {
  }

  // ---- The units agree with the assembler ----

  // The matching unit waits for a partner exactly if the instruction store will want two tokens.
  lemma MatchingAgrees(nodes: seq<Node>, labels: Labels, live: seq<nat>, order: seq<nat>, idx: Index, insts: seq<Placed>, k: nat, e: Dest)
    requires Complete(nodes, labels, live, order, idx, insts) && EdgeOf(nodes, order, k, e)
    requires IsPlaced(nodes, idx, e.node) && nodes[e.node].op.Op?
    ensures idx[e.node] < |insts|
    ensures MatchingOf(TargetWord(nodes, idx, e)) == MATCHING_BOTH <==> M.TakesTwo(Program(insts)[idx[e.node]])
    ensures Program(insts)[idx[e.node]].opcode == nodes[e.node].op.op
  {
    hide Placeable, Word, Number, Address, InputOf, MatchingOf, CreateDestination, TargetWord;
    Decodes(nodes, labels, live, order, idx, insts, k, e);
    var i := idx[e.node];
    assert Done(nodes, labels, order, idx, insts, i);
  }

  // A token sent along an edge passes the I/O switch and is never dropped by the instruction store.
  lemma NeverLost(nodes: seq<Node>, labels: Labels, live: seq<nat>, order: seq<nat>, idx: Index, insts: seq<Placed>, k: nat, e: Dest,
                  t: Token, partner: Token, stale: Token)
    requires Complete(nodes, labels, live, order, idx, insts) && EdgeOf(nodes, order, k, e)
    requires IsPlaced(nodes, idx, e.node) && nodes[e.node].op.Op?
    requires t.destination == TargetWord(nodes, idx, e)
    ensures M.Switch(t) == Some(M.ToMatch(t))
    ensures M.Dispatch(Program(insts), M.Single(t), stale).Some? && M.Dispatch(Program(insts), M.Both(t, partner), stale).Some?
    ensures M.Dispatch(Program(insts), M.Single(t), stale).value.opcode == nodes[e.node].op.op
  {
    hide Complete, Word, Number, Address, Reserved, InputOf, MatchingOf, CreateDestination, TargetWord, Matching, M.Dispatch, Program;
    Decodes(nodes, labels, live, order, idx, insts, k, e);
    NotAnOutput(t.destination);
    Takes(nodes, labels, live, order, idx, insts, k, e);
    Dispatched(Program(insts), t, partner, stale);
  }

  // The instruction an edge leads to takes two tokens, or one and a literal or nothing.
  lemma Takes(nodes: seq<Node>, labels: Labels, live: seq<nat>, order: seq<nat>, idx: Index, insts: seq<Placed>, k: nat, e: Dest)
    requires Complete(nodes, labels, live, order, idx, insts) && EdgeOf(nodes, order, k, e)
    requires IsPlaced(nodes, idx, e.node) && nodes[e.node].op.Op?
    ensures idx[e.node] < |Program(insts)|
    ensures var inst := Program(insts)[idx[e.node]];
      inst.opcode == nodes[e.node].op.op && (M.TakesTwo(inst) || inst.literals == ONE || NumInputs(inst.opcode) == 1)
  {
    hide Placeable, TargetWord, LabelWord;
    assert RoomAt(nodes, nodes[order[k]].d1) && RoomAt(nodes, nodes[order[k]].d2);
    assert Done(nodes, labels, order, idx, insts, idx[e.node]);
  }

  lemma Dispatched(program: seq<Instruction>, t: Token, partner: Token, stale: Token)
    requires Number(Address(t.destination)) < |program|
    requires var inst := program[Number(Address(t.destination))];
      M.TakesTwo(inst) || inst.literals == ONE || NumInputs(inst.opcode) == 1
    ensures M.Dispatch(program, M.Single(t), stale).Some? && M.Dispatch(program, M.Both(t, partner), stale).Some?
    ensures M.Dispatch(program, M.Single(t), stale).value.opcode == program[Number(Address(t.destination))].opcode
  {
    hide Number, Address, CreateDestination, M.TakesTwo;
  }

  lemma NotAnOutput(d: Destination)
    requires !Reserved(Address(d))
    ensures d != Types.OUTPUTD && d != Types.OUTPUTS && d != REGISTER_INPUT_HANDLER && d != DEREGISTER_INPUT_HANDLER && d != DEV_NULL
  {
  }

  // An edge to OUTD prints.
  lemma OutputPrints(nodes: seq<Node>, idx: Index, e: Dest, t: Token)
    requires e.node < |nodes| && nodes[e.node].op.OUTD? && t.destination == TargetWord(nodes, idx, e)
    ensures M.Switch(t) == Some(M.PrintedNumber(t.data))
  {
  }

  // ---- The second output ----

  lemma ZeroWord(a: bv32, input: bv32, m: bv32)
    requires a < 0x1000_0000 && input < 2 && m < 4
    ensures CreateDestination(a, input, m) == 0 <==> a == 0 && input == 0 && m == 0
  {
  }

  // A second output is marked, and so sent, exactly if it does not lead to the first input of the
  // first instruction as a token that needs no partner: that word is 0 and counts as absent.
  lemma SecondOutputMarked(nodes: seq<Node>, labels: Labels, live: seq<nat>, order: seq<nat>, idx: Index, insts: seq<Placed>, k: nat, e: Dest)
    requires Complete(nodes, labels, live, order, idx, insts) && k < |order| && order[k] < |nodes|
    requires nodes[order[k]].d2 == Some(e) && IsPlaced(nodes, idx, e.node) && nodes[e.node].op.Op?
    ensures k < |insts|
    ensures Program(insts)[k].both <==>
      !(idx[e.node] == 0 && e.input == INPUT_ONE && Matching(nodes[e.node]) == MATCHING_ONE)
  {
    hide Placeable, Word, Number, Address, InputOf, MatchingOf, CreateDestination, Matching;
    assert Done(nodes, labels, order, idx, insts, k);
    EdgeInGraph(nodes, labels, live, order[k], e);
    IndexFits(nodes, order, idx, e.node);
    AddressOfWord(idx[e.node]);
    MatchingFits(nodes[e.node]);
    ZeroWord(Word(idx[e.node]), e.input, Matching(nodes[e.node]));
    assert Number(0) == 0 by { ZeroNumber(); }
    if idx[e.node] == 0 { FirstWord(); }
  }

  lemma ZeroNumber()
    ensures Number(0) == 0
  {
  }

  lemma FirstWord()
    ensures Word(0) == 0
  {
  }

  // ---- From fan-out to placement ----

  // What fan-out and DUP removal keep is what placement needs.
  lemma TidyIsPlaceable(nodes: seq<Node>, labels: Labels, live: seq<nat>)
    requires Tidy(nodes) && |nodes| <= 0xFFF_FFFB && forall k :: 0 <= k < |live| ==> live[k] < |nodes|
    requires forall n :: 0 <= n < |nodes| ==> LabelOk(nodes, labels, live, nodes[n])
    ensures Placeable(nodes, labels, live)
  {
    forall n | 0 <= n < |nodes|
      ensures InGraph(nodes, nodes[n].d1) && InGraph(nodes, nodes[n].d2) && LabelOk(nodes, labels, live, nodes[n])
    {
      assert Onward(nodes, n, nodes[n].d1) && Onward(nodes, n, nodes[n].d2);
    }
  }
}
