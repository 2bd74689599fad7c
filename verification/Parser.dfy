// The assembler's first pass: rows of assembly become nodes and definitions of variables.
module Parser {
  import opened Words
  import opened Types
  import opened IrGraph
  import opened FanOut

  // What a row does, once split into its words; a label may stand before it.
  datatype Action =
    | Define(out: string, op: Opcode, a: Arg, b: Arg)                     // out = OP a b
    | Send(to: NodeOp, a: Arg)                                            // OUTD a
    | Split(onTrue: string, onFalse: string, op: Opcode, a: Arg, b: Arg)  // t, f = BRR a b
  datatype Row = Row(mark: Option<string>, action: Action)

  datatype Table = Table(nodes: seq<Node>, owner: Owner, labels: map<string, nat>)

  const EMPTY: Table := Table([], Owner(map[], map[]), map[])

  // Rows the assembler refuses: a literal before a variable, a literal of MER, a label given twice.
  predicate Refused(t: Table, r: Row) {
    || (r.mark.Some? && r.mark.value in t.labels)
    || (r.action.Define?
        && ((Inputs(Op(r.action.op)) == 2 && r.action.a.Literal? && r.action.b.Ref?)
            || (r.action.op.MER? && (r.action.a.Literal? || r.action.b.Literal?))))
  }

  // x gets one more definition, node n.
  function AddDef(owner: Owner, x: string, n: nat): Owner {
    var ds := if x in owner.defs then owner.defs[x] else [];
    Owner(owner.of[n := (x, |ds|)], owner.defs[x := ds + [n]])
  }

  function AddLabel(t: Table, mark: Option<string>, n: nat): map<string, nat> {
    if mark.Some? then t.labels[mark.value := n] else t.labels
  }

  function MainNode(a: Action, n: nat): Node
    requires a.Split? ==> n >= 2
  {
    match a
    case Define(_, op, x, y) => Node(Op(op), x, if Inputs(Op(op)) == 2 then y else NoArg, None, None, false)
    case Send(op, x) => Node(op, x, NoArg, None, None, false)
    case Split(_, _, op, x, y) => Node(Op(op), x, y, Some(Dest(n - 2, INPUT_ONE)), Some(Dest(n - 1, INPUT_ONE)), false)
  }

  // The two outputs of a split go through DUPs of their own, which are what is defined.
  function AddRow(t: Table, r: Row): Table {
    var n := |t.nodes|;
    match r.action
    case Define(x, _, _, _) =>
      Table(t.nodes + [MainNode(r.action, n)], AddDef(t.owner, x, n), AddLabel(t, r.mark, n))
    case Send(_, _) =>
      Table(t.nodes + [MainNode(r.action, n)], t.owner, AddLabel(t, r.mark, n))
    case Split(x, y, _, _, _) =>
      Table(t.nodes + [DUP_NODE, DUP_NODE, MainNode(r.action, n + 2)],
            AddDef(AddDef(t.owner, x, n), y, n + 1), AddLabel(t, r.mark, n + 2))
  }

  // ---- Every table the parser builds can be hooked up ----

  ghost predicate Usable(t: Table) {
    Parsed(t.nodes, t.owner) && (forall x :: x in t.labels ==> t.labels[x] < |t.nodes|)
    && forall i :: i in t.owner.of ==> i < |t.nodes|
  }

  lemma OpensKept(nodes: seq<Node>, more: seq<Node>, owner: Owner, x: string, n: nat)
    requires (forall y, j :: y in owner.defs && 0 <= j < |owner.defs[y]| ==> Opens(nodes, owner, y, j))
    requires |nodes| <= n < |more| && nodes <= more && more[n].d1.None? && more[n].d2.None?
    ensures var o := AddDef(owner, x, n);
      forall y, j :: y in o.defs && 0 <= j < |o.defs[y]| ==> Opens(more, o, y, j)
  {
    var o := AddDef(owner, x, n);
    forall y, j | y in o.defs && 0 <= j < |o.defs[y]|
      ensures Opens(more, o, y, j)
    {
      if y in owner.defs && j < |owner.defs[y]| { assert Opens(nodes, owner, y, j); }
    }
  }

  lemma MoreNodes(nodes: seq<Node>, more: seq<Node>)
    requires Tidy(nodes) && NoDupArgs(nodes) && OnlyToDups(nodes) && nodes <= more
    requires forall n :: |nodes| <= n < |more| ==>
      && Onward(more, n, more[n].d1) && Onward(more, n, more[n].d2)
      && EdgeIn(more, {}, more[n].d1) && EdgeIn(more, {}, more[n].d2)
      && (IsDup(more[n]) ==> more[n].in1.NoArg? && more[n].in2.NoArg?)
    ensures Tidy(more) && NoDupArgs(more) && OnlyToDups(more)
  {
    hide IsInput;
    forall n | 0 <= n < |nodes|
      ensures EdgeIn(more, {}, nodes[n].d1) && EdgeIn(more, {}, nodes[n].d2)
    {
      assert EdgeIn(nodes, {}, nodes[n].d1) && EdgeIn(nodes, {}, nodes[n].d2);
      assert Onward(nodes, n, nodes[n].d1) && Onward(nodes, n, nodes[n].d2);
    }
    forall n | 0 <= n < |more|
      ensures Onward(more, n, more[n].d1) && Onward(more, n, more[n].d2)
    {
      if n < |nodes| {
        assert more[n] == nodes[n] && Onward(nodes, n, nodes[n].d1) && Onward(nodes, n, nodes[n].d2);
      }
    }
  }

  lemma AddRowUsable(t: Table, r: Row)
    requires Usable(t)
    ensures Usable(AddRow(t, r))
  {
    hide IsInput, Tidy, NoDupArgs, OnlyToDups, AddDef;
    var n, after := |t.nodes|, AddRow(t, r);
    assert IsInput(INPUT_ONE) by { FirstInput(); }
    MoreNodes(t.nodes, after.nodes);
    match r.action
    case Define(x, _, _, _) =>
      OpensKept(t.nodes, after.nodes, t.owner, x, n);
      OwnersKept(t.owner, x, n);
    case Send(_, _) =>
      forall y, j | y in t.owner.defs && 0 <= j < |t.owner.defs[y]|
        ensures Opens(after.nodes, t.owner, y, j)
      {
        assert Opens(t.nodes, t.owner, y, j);
      }
    case Split(x, y, _, _, _) =>
      var one := t.nodes + [DUP_NODE];
      OpensKept(t.nodes, one, t.owner, x, n);
      OpensKept(one, after.nodes, AddDef(t.owner, x, n), y, n + 1);
      OwnersKept(t.owner, x, n);
      OwnersKept(AddDef(t.owner, x, n), y, n + 1);
  }

  lemma OwnersKept(owner: Owner, x: string, n: nat)
    ensures forall i :: i in AddDef(owner, x, n).of <==> i in owner.of || i == n
  {
  }

  // parse_create_ir_graph up to the inputs; None if a row is refused.
  method ParseRows(rows: seq<Row>) returns (r: Option<Table>)
    ensures r.Some? ==> Usable(r.value)
    ensures r.Some? ==> |r.value.nodes| >= |rows|
    ensures r.None? <==> exists k :: 0 <= k < |rows| && Breaks(rows, k)
    ensures r.Some? ==> r.value == TableOf(rows, |rows|)
  {
    hide Usable, AddRow, Refused;
    var t := EMPTY;
    assert Usable(EMPTY) by { EmptyUsable(); }
    for k := 0 to |rows|
      invariant Usable(t) && t == TableOf(rows, k)
      invariant |t.nodes| >= k
      invariant forall j :: 0 <= j < k ==> !Breaks(rows, j)
    {
      if Refused(t, rows[k]) {
        assert Breaks(rows, k);
        return None;
      }
      AddRowUsable(t, rows[k]);
      AddRowLonger(t, rows[k]);
      t := AddRow(t, rows[k]);
    }
    return Some(t);
  }

  function TableOf(rows: seq<Row>, k: nat): Table
    requires k <= |rows|
  {
    if k == 0 then EMPTY else AddRow(TableOf(rows, k - 1), rows[k - 1])
  }

  // Row k is the kind of row that is refused after those before it.
  predicate Breaks(rows: seq<Row>, k: nat)
    requires k < |rows|
  {
    Refused(TableOf(rows, k), rows[k])
  }

  lemma AddRowLonger(t: Table, r: Row)
    ensures |AddRow(t, r).nodes| > |t.nodes|
  {
  }

  lemma EmptyUsable()
    ensures Usable(EMPTY)
  {
  }
}
