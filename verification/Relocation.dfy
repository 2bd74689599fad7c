// An assembled program loaded behind others: with the assembler's own lists of constants and labels,
// the loader moves it as a whole.
module Relocation {
  import opened Words
  import opened Numbers
  import opened Types
  import opened IrGraph
  import opened Placement
  import opened Assembled
  import Format
  import L = Loader

  // ---- The lists name exactly what they should ----

  lemma InMore(a: seq<Format.Patch>, b: seq<Format.Patch>, i: nat, part: L.Part)
    ensures L.InList(a + b, i, part) <==> L.InList(a, i, part) || L.InList(b, i, part)
  {
    hide L.Marks;
    if k :| 0 <= k < |a| && a[k].instruction == i && L.Marks(a[k], part) { assert (a + b)[k] == a[k]; }
    if k :| 0 <= k < |b| && b[k].instruction == i && L.Marks(b[k], part) { assert (a + b)[|a| + k] == b[k]; }
  }

  lemma InOne(p: Format.Patch, i: nat, part: L.Part)
    ensures L.InList([p], i, part) <==> p.instruction == i && L.Marks(p, part)
    ensures !L.InList([], i, part)
  {
    assert p.instruction == i && L.Marks(p, part) ==> [p][0].instruction == i && L.Marks([p][0], part);
  }

  lemma OwnConstantIs(nodes: seq<Node>, e: Option<Dest>, first: bool, at: nat, i: nat, part: L.Part)
    ensures L.InList(OwnConstant(nodes, e, first, at), i, part)
      <==> at == i && ToPlace(nodes, e) && part == (if first then L.FIRST_DESTINATION else L.SECOND_DESTINATION)
  {
    hide ToPlace;
    InOne(Format.Patch(at, first, !first, false, false), i, part);
  }

  // The constants are the destinations that lead to no instruction.
  lemma {:induction false} ConstantsAre(nodes: seq<Node>, order: seq<nat>, v: nat, i: nat, part: L.Part)
    requires v <= |order| && forall k :: 0 <= k < |order| ==> order[k] < |nodes|
    ensures L.InList(Constants(nodes, order, v), i, part) <==>
      i < v && ((part.FIRST_DESTINATION? && ToPlace(nodes, nodes[order[i]].d1)) || (part.SECOND_DESTINATION? && ToPlace(nodes, nodes[order[i]].d2)))
  {
    hide ToPlace, L.InList, OwnConstant;
    if v == 0 {
      InOne(Format.Patch(0, false, false, false, false), i, part);
    } else {
      ConstantsAre(nodes, order, v - 1, i, part);
      var n := nodes[order[v - 1]];
      InMore(Constants(nodes, order, v - 1), OwnConstants(nodes, n, v - 1), i, part);
      InMore(OwnConstant(nodes, n.d1, true, v - 1), OwnConstant(nodes, n.d2, false, v - 1), i, part);
      OwnConstantIs(nodes, n.d1, true, v - 1, i, part);
      OwnConstantIs(nodes, n.d2, false, v - 1, i, part);
    }
  }

  // The labels are the first literals that name a label.
  lemma {:induction false} LabelsAre(nodes: seq<Node>, order: seq<nat>, v: nat, i: nat, part: L.Part)
    requires v <= |order| && forall k :: 0 <= k < |order| ==> order[k] < |nodes|
    ensures L.InList(LabelPatches(nodes, order, v), i, part) <==> i < v && part.FIRST_LITERAL? && nodes[order[i]].in1.Ref?
  {
    hide L.InList;
    if v == 0 {
      InOne(Format.Patch(0, false, false, false, false), i, part);
    } else {
      LabelsAre(nodes, order, v - 1, i, part);
      var n := nodes[order[v - 1]];
      InMore(LabelPatches(nodes, order, v - 1), OwnLabels(n, v - 1), i, part);
      InOne(Format.Patch(v - 1, false, false, true, false), i, part);
    }
  }

  // ---- The program moves as a whole ----

  // A destination of the k-th instruction, as the loader leaves it.
  ghost function Moved(nodes: seq<Node>, order: seq<nat>, idx: Index, k: nat, part: L.Part, e: Option<Dest>, offset: nat): Destination
    requires (forall j :: 0 <= j < |order| ==> order[j] < |nodes|) && (e.Some? ==> IsPlaced(nodes, idx, e.value.node))
  {
    L.MovedDestination(if e.Some? then TargetWord(nodes, idx, e.value) else DEV_NULL,
                       L.InList(Constants(nodes, order, |order|), k, part), offset)
  }

  function OutputOf(n: Node, part: L.Part): Option<Dest> {
    if part.FIRST_DESTINATION? then n.d1 else n.d2
  }

  // Every edge leads to the instruction of its target, `offset` further on, with the same input and
  // matching function; edges to OUTD and OUTS, and missing ones, stay what they are.
  lemma EdgesMove(nodes: seq<Node>, labels: Labels, live: seq<nat>, order: seq<nat>, idx: Index, insts: seq<Placed>,
                  k: nat, part: L.Part, offset: nat)
    requires Complete(nodes, labels, live, order, idx, insts) && k < |order| && |order| + offset < 0xFFF_FFFB
    requires part.FIRST_DESTINATION? || part.SECOND_DESTINATION?
    ensures forall j :: 0 <= j < |order| ==> order[j] < |nodes|
    ensures var e := OutputOf(nodes[order[k]], part);
      && (e.Some? ==> IsPlaced(nodes, idx, e.value.node))
      && var w := Moved(nodes, order, idx, k, part, e, offset);
      if e.None? then w == DEV_NULL
      else if ToPlace(nodes, e) then w == TargetWord(nodes, idx, e.value)
      else Number(Address(w)) == idx[e.value.node] + offset
           && InputOf(w) == e.value.input && MatchingOf(w) == Matching(nodes[e.value.node])
  {
    hide Placeable, Finished, RoomAt, IsSettled, TargetWord, L.Increment, L.InList, Number, Address, InputOf, MatchingOf, Matching, Constants, DEV_NULL;
    OrderInside(nodes, labels, order, idx, insts, |order|);
    var e := OutputOf(nodes[order[k]], part);
    ConstantsAre(nodes, order, |order|, k, part);
    if e.Some? {
      assert EdgeOf(nodes, order, k, e.value);
      Decodes(nodes, labels, live, order, idx, insts, k, e.value);
      if nodes[e.value.node].op.Op? {
        var w := TargetWord(nodes, idx, e.value);
        NotAnOutput(w);
        Addresses(nodes, labels, order, idx, insts, e.value.node);
        L.IncrementMoves(w, offset);
      }
    }
  }

  lemma Addresses(nodes: seq<Node>, labels: Labels, order: seq<nat>, idx: Index, insts: seq<Placed>, n: nat)
    requires Finished(nodes, labels, order, idx, insts, |order|) && n in idx
    ensures idx[n] < |order|
  {
  }

  lemma Narrow(d: Destination)
    ensures ((d as Data) & 0xFFFF_FFFF) as bv32 == d
  {
  }

  // A label's word leads to its target, `offset` further on.
  lemma LabelMoves(nodes: seq<Node>, labels: Labels, live: seq<nat>, order: seq<nat>, idx: Index, insts: seq<Placed>, target: nat, offset: nat)
    requires Complete(nodes, labels, live, order, idx, insts) && target in idx && |order| + offset < 0xFFF_FFFB
    ensures var l := L.MovedLiteral(LabelWord(idx, target), true, offset); var d := (l & 0xFFFF_FFFF) as bv32;
      Number(Address(d)) == idx[target] + offset && InputOf(d) == INPUT_ONE && MatchingOf(d) == MATCHING_ONE
  {
    hide Placeable, Finished, RoomAt, IsSettled, L.Increment, Number, Word, Address, InputOf, MatchingOf, CreateDestination;
    Addresses(nodes, labels, order, idx, insts, target);
    var d := CreateDestination(Word(idx[target]), INPUT_ONE, MATCHING_ONE);
    AddressOfWord(idx[target]);
    LabelFields(Word(idx[target]));
    Narrow(d);
    L.IncrementMoves(d, offset);
    Narrow(L.Increment(d, offset));
  }

  lemma LabelFields(a: bv32)
    requires a < 0x1000_0000
    ensures var d := CreateDestination(a, INPUT_ONE, MATCHING_ONE);
      Address(d) == a && InputOf(d) == INPUT_ONE && MatchingOf(d) == MATCHING_ONE
  {
  }
}
