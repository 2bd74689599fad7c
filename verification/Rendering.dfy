// Compiled lines as rows of assembly, and the nodes and definitions they parse to.
module Rendering {
  import opened Words
  import T = Tass
  import G = TokenGame
  import E = Encoding
  import opened Types
  import opened IrGraph
  import opened FanOut
  import opened Parser

  // The text of a name.
  type Spelling = T.Name -> string

  predicate IsSplit(l: T.Line) { l.Branch? || l.NewTag? }

  // Without a false output, "_" stands in its place.
  function SecondText(f: Option<T.Name>, w: Spelling): string {
    if f.Some? then w(f.value) else "_"
  }

  function ActionOf(l: T.Line, w: Spelling): Action {
    match l
    case Literal(out, v) => Define(w(out), DUP, Literal(v), NoArg)
    case Copy(out, src) => Define(w(out), DUP, Ref(w(src)), NoArg)
    case Binary(out, op, a, b) => Define(w(out), BIN(op), Ref(w(a)), Ref(w(b)))
    case Merge(out, a, b) => Define(w(out), MER, Ref(w(a)), Ref(w(b)))
    case Branch(t, f, src, test) => Split(w(t), SecondText(f, w), BRR, Ref(w(src)), Ref(w(test)))
    case NewTag(n, o, src) => Split(w(n), w(o), NTG, Ref(w(src)), NoArg)
    case CopyTag(out, tagFrom, src) => Define(w(out), CTG, Ref(w(tagFrom)), Ref(w(src)))
    case CopyTagLit(out, tagFrom, v) => Define(w(out), CTG, Ref(w(tagFrom)), Literal(v))
    case NextIter(out, src) => Define(w(out), ITG, Ref(w(src)), NoArg)
    case ResetIter(out, src) => Define(w(out), SIL, Ref(w(src)), Literal(0))
    case ReadTag(out, src) => Define(w(out), ETG, Ref(w(src)), NoArg)
    case Output(src) => Send(OUTD, Ref(w(src)))
  }

  function Rows(P: seq<T.Line>, w: Spelling): (rows: seq<Row>)
    ensures |rows| == |P|
  {
    seq(|P|, i requires 0 <= i < |P| => Row(None, ActionOf(P[i], w)))
  }

  predicate Mentions(P: seq<T.Line>, n: T.Name) {
    exists i :: 0 <= i < |P| && n in T.Outs(P[i]) + T.Ins(P[i])
  }

  // Different names have different texts, and none is "_".
  ghost predicate Spells(w: Spelling, P: seq<T.Line>) {
    && (forall m, n :: Mentions(P, m) && Mentions(P, n) && w(m) == w(n) ==> m == n)
    && (forall n :: Mentions(P, n) ==> w(n) != "_")
  }

  // ---- Which node is which ----

  // The number of nodes of the first i lines.
  function Size(P: seq<T.Line>, i: nat): nat
    requires i <= |P|
  {
    if i == 0 then 0 else Size(P, i - 1) + (if IsSplit(P[i - 1]) then 3 else 1)
  }

  // The node that does what line i says.
  function Main(P: seq<T.Line>, i: nat): (n: nat)
    requires i < |P|
    ensures Size(P, i) <= n < Size(P, i + 1)
  {
    Size(P, i + 1) - 1
  }

  // The node that defines name n of line i.
  function DefNode(P: seq<T.Line>, i: nat, n: T.Name): nat
    requires i < |P|
  {
    match P[i]
    case Branch(t, _, _, _) => if n == t then Size(P, i) else Size(P, i) + 1
    case NewTag(a, _, _) => if n == a then Size(P, i) else Size(P, i) + 1
    case _ => Main(P, i)
  }

  lemma {:induction false} SizeGrows(P: seq<T.Line>, i: nat, j: nat)
    requires i <= j <= |P|
    ensures Size(P, i) + (j - i) <= Size(P, j)
    decreases j
  {
    if i < j { SizeGrows(P, i, j - 1); }
  }

  // The line a node belongs to.
  lemma {:induction false} LineOf(P: seq<T.Line>, k: nat, n: nat) returns (i: nat)
    requires k <= |P| && n < Size(P, k)
    ensures i < k && Size(P, i) <= n < Size(P, i + 1)
    decreases k
  {
    if n < Size(P, k - 1) { i := LineOf(P, k - 1, n); } else { i := k - 1; }
  }

  lemma MainsDiffer(P: seq<T.Line>, i: nat, j: nat)
    requires i < |P| && j < |P| && Main(P, i) == Main(P, j)
    ensures i == j
  {
    if i < j { SizeGrows(P, i + 1, j); }
    if j < i { SizeGrows(P, j + 1, i); }
  }

  // ---- The table the rows parse to ----

  ghost predicate NodesOf(P: seq<T.Line>, w: Spelling, nodes: seq<Node>, i: nat)
    requires i < |P|
  {
    && Size(P, i + 1) <= |nodes|
    && nodes[Main(P, i)] == MainNode(ActionOf(P[i], w), Main(P, i))
    && (IsSplit(P[i]) ==> nodes[Size(P, i)] == DUP_NODE == nodes[Size(P, i) + 1])
  }

  ghost predicate DefinedAt(t: Table, x: string, n: nat) {
    x in t.owner.defs && n in t.owner.defs[x]
  }

  ghost predicate DefsOf(P: seq<T.Line>, w: Spelling, t: Table, i: nat)
    requires i < |P|
  {
    && (forall n :: n in T.Outs(P[i]) ==> w(n) in t.owner.defs && t.owner.defs[w(n)] == [DefNode(P, i, n)])
    && (P[i].Branch? && P[i].onFalse.None? ==> DefinedAt(t, "_", Size(P, i) + 1))
  }

  // x is defined by one of the first k lines.
  ghost predicate Defines(P: seq<T.Line>, w: Spelling, k: nat, x: string) {
    exists i, n :: 0 <= i < k <= |P| && n in T.Outs(P[i]) && w(n) == x
  }

  ghost predicate TableIs(P: seq<T.Line>, w: Spelling, k: nat, t: Table)
    requires k <= |P|
  {
    && |t.nodes| == Size(P, k) && t.labels == map[]
    && (forall i :: 0 <= i < k ==> NodesOf(P, w, t.nodes, i))
    && (forall i :: 0 <= i < k ==> DefsOf(P, w, t, i))
    && (forall x :: x in t.owner.defs && x != "_" ==> Defines(P, w, k, x))
  }

  lemma NotRefused(t: Table, l: T.Line, w: Spelling)
    requires t.labels == map[]
    ensures !Refused(t, Row(None, ActionOf(l, w)))
  {
  }

  // A name of line k is not spelled like one of an earlier line.
  lemma NewText(P: seq<T.Line>, w: Spelling, k: nat, n: T.Name)
    requires T.SingleDefs(P) && Spells(w, P) && k < |P| && n in T.Outs(P[k])
    ensures !Defines(P, w, k, w(n)) && w(n) != "_"
    ensures forall i, m :: 0 <= i < k && m in T.Outs(P[i]) ==> w(m) != w(n)
  {
    hide T.Outs;
    assert Mentions(P, n);
    forall i, m | 0 <= i < k && m in T.Outs(P[i])
      ensures w(m) != w(n)
    {
      assert Mentions(P, m);
    }
  }

  lemma OwnTexts(P: seq<T.Line>, w: Spelling, k: nat)
    requires T.SingleDefs(P) && Spells(w, P) && k < |P|
    ensures forall m, n :: m in T.Outs(P[k]) && n in T.Outs(P[k]) && w(m) == w(n) ==> m == n
    ensures T.OutsDiffer(P[k])
  {
    hide T.Outs;
    forall m, n | m in T.Outs(P[k]) && n in T.Outs(P[k]) && w(m) == w(n)
      ensures m == n
    {
      assert Mentions(P, m) && Mentions(P, n);
    }
    assert P[k] in P;
  }

  // The nodes of one row.
  lemma AddedNodes(t: Table, l: T.Line, w: Spelling)
    ensures var n, after := |t.nodes|, AddRow(t, Row(None, ActionOf(l, w)));
      && after.labels == t.labels
      && after.nodes == t.nodes + (if IsSplit(l) then [DUP_NODE, DUP_NODE, MainNode(ActionOf(l, w), n + 2)]
                                   else [MainNode(ActionOf(l, w), n)])
  {
    hide AddDef;
  }

  lemma RowNodes(P: seq<T.Line>, w: Spelling, k: nat, t: Table)
    requires k < |P| && TableIs(P, w, k, t)
    ensures var after := AddRow(t, Row(None, ActionOf(P[k], w)));
      && |after.nodes| == Size(P, k + 1) && after.labels == map[]
      && forall i :: 0 <= i <= k ==> NodesOf(P, w, after.nodes, i)
  {
    hide AddDef, DefsOf, Defines, AddRow, ActionOf, MainNode;
    var after := AddRow(t, Row(None, ActionOf(P[k], w)));
    AddedNodes(t, P[k], w);
    forall i | 0 <= i <= k
      ensures NodesOf(P, w, after.nodes, i)
    {
      if i < k {
        SizeGrows(P, i + 1, k);
        assert NodesOf(P, w, t.nodes, i);
      }
    }
  }

  // What adding a definition does.
  lemma AddDefIs(owner: Owner, x: string, n: nat)
    ensures var d := AddDef(owner, x, n).defs;
      && d.Keys == owner.defs.Keys + {x} && n in d[x]
      && (x !in owner.defs ==> d[x] == [n])
      && (forall m :: x in owner.defs && m in owner.defs[x] ==> m in d[x])
      && forall y :: y in owner.defs && y != x ==> d[y] == owner.defs[y]
  {
  }

  lemma RowDefs(P: seq<T.Line>, w: Spelling, k: nat, t: Table)
    requires k < |P| && TableIs(P, w, k, t) && T.SingleDefs(P) && Spells(w, P)
    ensures DefsOf(P, w, AddRow(t, Row(None, ActionOf(P[k], w))), k)
  {
    hide AddDef, NodesOf, DefsOf, Defines, Spells, T.SingleDefs, T.Outs, ActionOf, AddRow;
    OwnTexts(P, w, k);
    forall n | n in T.Outs(P[k]) ensures w(n) !in t.owner.defs && w(n) != "_" { NewText(P, w, k, n); }
    if IsSplit(P[k]) { SplitDefs(P, w, k, t); } else { PlainDefs(P, w, k, t); }
  }

  // A line with one output, or none, defines its text.
  lemma PlainDefs(P: seq<T.Line>, w: Spelling, k: nat, t: Table)
    requires k < |P| && |t.nodes| == Size(P, k) && !IsSplit(P[k])
    requires forall n :: n in T.Outs(P[k]) ==> w(n) !in t.owner.defs
    ensures DefsOf(P, w, AddRow(t, Row(None, ActionOf(P[k], w))), k)
  {
    hide AddDef, MainNode;
    if !P[k].Output? { AddDefIs(t.owner, w(P[k].out), |t.nodes|); }
  }

  // A line with two outputs defines them at its two DUPs.
  lemma SplitDefs(P: seq<T.Line>, w: Spelling, k: nat, t: Table)
    requires k < |P| && |t.nodes| == Size(P, k) && IsSplit(P[k])
    requires forall n :: n in T.Outs(P[k]) ==> w(n) !in t.owner.defs && w(n) != "_"
    requires forall m, n :: m in T.Outs(P[k]) && n in T.Outs(P[k]) && w(m) == w(n) ==> m == n
    requires T.OutsDiffer(P[k])
    ensures DefsOf(P, w, AddRow(t, Row(None, ActionOf(P[k], w))), k)
  {
    hide AddDef, MainNode;
    var a := ActionOf(P[k], w);
    AddDefIs(t.owner, a.onTrue, |t.nodes|);
    AddDefIs(AddDef(t.owner, a.onTrue, |t.nodes|), a.onFalse, |t.nodes| + 1);
  }

  // The texts a row defines.
  function Texts(a: Action): set<string> {
    match a
    case Define(x, _, _, _) => {x}
    case Send(_, _) => {}
    case Split(x, y, _, _, _) => {x, y}
  }

  lemma OtherDefs(t: Table, a: Action)
    ensures var after := AddRow(t, Row(None, a));
      && after.owner.defs.Keys == t.owner.defs.Keys + Texts(a)
      && (forall x :: x in t.owner.defs && x !in Texts(a) ==> after.owner.defs[x] == t.owner.defs[x])
      && (forall x, n :: DefinedAt(t, x, n) ==> DefinedAt(after, x, n))
  {
    hide AddDef;
    match a
    case Define(x, _, _, _) => AddDefIs(t.owner, x, |t.nodes|);
    case Send(_, _) =>
    case Split(x, y, _, _, _) =>
      AddDefIs(t.owner, x, |t.nodes|);
      AddDefIs(AddDef(t.owner, x, |t.nodes|), y, |t.nodes| + 1);
  }

  lemma TextsAreOuts(P: seq<T.Line>, w: Spelling, k: nat, x: string)
    requires k < |P|
    ensures x in Texts(ActionOf(P[k], w)) ==> x == "_" || exists n :: n in T.Outs(P[k]) && w(n) == x
  {
    match P[k]
    case Branch(t, f, _, _) => assert t in T.Outs(P[k]) && (f.Some? ==> f.value in T.Outs(P[k]));
    case NewTag(n, o, _) => assert n in T.Outs(P[k]) && o in T.Outs(P[k]);
    case Output(_) =>
    case _ => assert P[k].out in T.Outs(P[k]);
  }

  lemma DefsKept(P: seq<T.Line>, w: Spelling, k: nat, t: Table, i: nat)
    requires i < k < |P| && DefsOf(P, w, t, i) && T.SingleDefs(P) && Spells(w, P)
    ensures DefsOf(P, w, AddRow(t, Row(None, ActionOf(P[k], w))), i)
  {
    hide AddRow, Texts, ActionOf, T.Outs, Spells, T.SingleDefs, DefNode;
    OtherDefs(t, ActionOf(P[k], w));
    forall n | n in T.Outs(P[i])
      ensures w(n) !in Texts(ActionOf(P[k], w))
    {
      NewText(P, w, i, n);
      TextsAreOuts(P, w, k, w(n));
      forall m | m in T.Outs(P[k]) ensures w(m) != w(n) { NewText(P, w, k, m); }
    }
  }

  lemma RowIs(P: seq<T.Line>, w: Spelling, k: nat, t: Table)
    requires k < |P| && TableIs(P, w, k, t) && T.SingleDefs(P) && Spells(w, P)
    ensures TableIs(P, w, k + 1, AddRow(t, Row(None, ActionOf(P[k], w))))
  {
    hide AddRow, DefsOf, NodesOf, Spells, T.SingleDefs, ActionOf, Texts, Size, T.Outs;
    var after := AddRow(t, Row(None, ActionOf(P[k], w)));
    RowNodes(P, w, k, t);
    RowDefs(P, w, k, t);
    OtherDefs(t, ActionOf(P[k], w));
    forall i | 0 <= i <= k ensures DefsOf(P, w, after, i) { if i < k { DefsKept(P, w, k, t, i); } }
    forall x | x in after.owner.defs && x != "_"
      ensures Defines(P, w, k + 1, x)
    {
      TextsAreOuts(P, w, k, x);
      if x in t.owner.defs { assert Defines(P, w, k, x); }
    }
  }

  lemma {:induction false} RowsParse(P: seq<T.Line>, w: Spelling, k: nat)
    requires k <= |P| && T.SingleDefs(P) && Spells(w, P)
    ensures TableIs(P, w, k, TableOf(Rows(P, w), k))
    decreases k
  {
    hide AddRow, DefsOf, NodesOf, Spells, T.SingleDefs, ActionOf;
    if k > 0 {
      RowsParse(P, w, k - 1);
      RowIs(P, w, k - 1, TableOf(Rows(P, w), k - 1));
    }
  }

  // The assembler refuses no compiled program.
  lemma NoneBreaks(P: seq<T.Line>, w: Spelling, k: nat)
    requires k < |P| && T.SingleDefs(P) && Spells(w, P)
    ensures !Breaks(Rows(P, w), k)
  {
    hide Refused, Spells, T.SingleDefs, TableOf, ActionOf;
    RowsParse(P, w, k);
    NotRefused(TableOf(Rows(P, w), k), P[k], w);
  }

  // ---- Slots ----

  function InputAt(port: nat): bv32 { if port == 0 then INPUT_ONE else INPUT_TWO }

  function Slot(P: seq<T.Line>, i: nat, port: nat): Dest
    requires i < |P|
  {
    Dest(Main(P, i), InputAt(port))
  }

  // d is a slot that reads n.
  ghost predicate ReadsAt(P: seq<T.Line>, d: Dest, n: T.Name) {
    exists i: nat, port: nat :: G.Reads(P, i, port, n) && d == Slot(P, i, port)
  }

  // The arguments of a node name what its line reads.
  lemma ArgsAre(P: seq<T.Line>, w: Spelling, i: nat)
    requires i < |P| && Spells(w, P)
    ensures var m := MainNode(ActionOf(P[i], w), Main(P, i));
      && Named(m.in1, {}) == (if |G.Ports(P[i])| > 0 then Some(w(G.Ports(P[i])[0])) else None)
      && Named(m.in2, {}) == (if |G.Ports(P[i])| > 1 then Some(w(G.Ports(P[i])[1])) else None)
    ensures |G.Ports(P[i])| <= 2
  {
    hide Spells;
    PortsMentioned(P, w, i);
  }

  lemma PortsMentioned(P: seq<T.Line>, w: Spelling, i: nat)
    requires i < |P| && Spells(w, P)
    ensures forall n :: n in G.Ports(P[i]) ==> Mentions(P, n) && w(n) != "_"
  {
    forall n | n in G.Ports(P[i]) ensures Mentions(P, n) { assert n in T.Ins(P[i]); }
  }

  // The uses of a text are the slots that read the name.
  lemma UsesAreSlots(P: seq<T.Line>, w: Spelling, t: Table, n: T.Name, d: Dest)
    requires TableIs(P, w, |P|, t) && Spells(w, P) && Mentions(P, n)
    ensures d in UsesOf(t.nodes, {}, w(n), |t.nodes|) <==> ReadsAt(P, d, n)
  {
    hide TableIs, Spells, Named, G.Ports, ActionOf, UsesOf, DefsOf;
    UsesAreAll(t.nodes, {}, w(n), |t.nodes|, d);
    SizeIs(P, w, t);
    if d in UsesOf(t.nodes, {}, w(n), |t.nodes|) {
      var i := LineOf(P, |P|, d.node);
      UseReads(P, w, t, n, d, i);
    }
    if ReadsAt(P, d, n) {
      var i: nat, port: nat :| G.Reads(P, i, port, n) && d == Slot(P, i, port);
      SizeGrows(P, i + 1, |P|);
      NodesAt(P, w, t, i);
      ArgsAre(P, w, i);
    }
  }

  lemma SizeIs(P: seq<T.Line>, w: Spelling, t: Table)
    requires TableIs(P, w, |P|, t)
    ensures |t.nodes| == Size(P, |P|)
  {
  }

  lemma NodesAt(P: seq<T.Line>, w: Spelling, t: Table, i: nat)
    requires TableIs(P, w, |P|, t) && i < |P|
    ensures NodesOf(P, w, t.nodes, i)
  {
  }

  lemma UseReads(P: seq<T.Line>, w: Spelling, t: Table, n: T.Name, d: Dest, i: nat)
    requires TableIs(P, w, |P|, t) && Spells(w, P) && Mentions(P, n) && i < |P|
    requires Size(P, i) <= d.node < Size(P, i + 1) && d.node < |t.nodes|
    requires (d.input == INPUT_ONE && Named(t.nodes[d.node].in1, {}) == Some(w(n)))
          || (d.input == INPUT_TWO && Named(t.nodes[d.node].in2, {}) == Some(w(n)))
    ensures ReadsAt(P, d, n)
  {
    hide TableIs, G.Ports, ActionOf;
    NodesAt(P, w, t, i);
    DupHasNoNames();
    assert d.node == Main(P, i);
    ArgsAre(P, w, i);
    PortsMentioned(P, w, i);
    var port := if d.input == INPUT_ONE then 0 else 1;
    assert G.Ports(P[i])[port] in G.Ports(P[i]);
    assert G.Reads(P, i, port, n) && d == Slot(P, i, port);
  }

  lemma DupHasNoNames()
    ensures Named(DUP_NODE.in1, {}) == None == Named(DUP_NODE.in2, {})
  {
  }

  // Nothing reads "_".
  lemma {:induction false} NoUses(nodes: seq<Node>, i: nat)
    requires i <= |nodes|
    ensures UsesOf(nodes, {}, "_", i) == []
  {
    if i > 0 { NoUses(nodes, i - 1); }
  }

  // ---- The nodes once their inputs are fixed up ----

  function NodeOpOf(l: T.Line): NodeOp {
    if l.Output? then OUTD else Op(E.OpcodeOf(l))
  }

  // The literal that stays with the node.
  function LiteralArg(l: T.Line): Arg {
    match l
    case Literal(_, v) => Literal(v)
    case CopyTagLit(_, _, v) => Literal(v)
    case ResetIter(_, _) => Literal(0)
    case _ => NoArg
  }

  lemma FixedMain(l: T.Line, w: Spelling, n: nat)
    requires IsSplit(l) ==> n >= 2
    ensures var m := Fixed(MainNode(ActionOf(l, w), n), {});
      && m.op == NodeOpOf(l) && m.in1 == LiteralArg(l) && m.in2 == NoArg && !m.optimizable
  {
  }
}
