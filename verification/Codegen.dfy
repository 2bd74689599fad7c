// GenerateAssemblyPass as functions of the generator's state.
module Codegen {
  import opened Words
  import F = Force
  import opened Tass

  type Var = F.Var

  // The lines so far, the current name of every variable, the number of the last generated name,
  // the name carrying the current tag and the name guarding literals.
  datatype Gen = Gen(lines: seq<Line>, vars: map<Var, Name>, num: nat, scope: Option<Name>, guard: Option<Name>)

  function Put(st: Gen, l: Line): Gen {
    st.(lines := st.lines + [l])
  }

  // ---- Expressions ----

  // _create_num_literal: the literal itself, and behind it a branch on the guard if there is one.
  function RawLiteral(out: Name, n: Data, scope: Option<Name>): Line {
    if scope.Some? then CopyTagLit(out, scope.value, n) else Literal(out, n)
  }

  function GenLiteral(n: Data, out: Name, st: Gen): Gen {
    if st.guard.Some? then
      var tmp := Name("%", st.num + 1);
      st.(lines := st.lines + [RawLiteral(tmp, n, st.scope), Branch(out, None, tmp, st.guard.value)],
          num := st.num + 1)
    else
      Put(st, RawLiteral(out, n, st.scope))
  }

  function GenExpr(e: F.Expr, st: Gen): (r: (Gen, Name))
    requires F.UsedExpr(e) <= st.vars.Keys
    ensures r.0.vars == st.vars && r.0.scope == st.scope && r.0.guard == st.guard
    ensures st.lines <= r.0.lines && st.num <= r.0.num
  {
    match e
    case Number(n) =>
      var out := Name("%", st.num + 1);
      (GenLiteral(n, out, st.(num := st.num + 1)), out)
    case Variable(x) => (st, st.vars[x])
    case Binary(op, l, r) =>
      var (st1, a) := GenExpr(l, st);
      var (st2, b) := GenExpr(r, st1);
      var out := Name("%", st2.num + 1);
      (Put(st2, Binary(out, op, a, b)).(num := st2.num + 1), out)
  }

  // The three kinds of expression, one at a time
  lemma NumberIs(e: F.Expr, st: Gen)
    requires e.Number? && F.UsedExpr(e) <= st.vars.Keys
    ensures var out := Name("%", st.num + 1); GenExpr(e, st) == (GenLiteral(e.n, out, st.(num := st.num + 1)), out)
  {
    hide GenLiteral;
  }

  lemma VariableIs(e: F.Expr, st: Gen)
    requires e.Variable? && F.UsedExpr(e) <= st.vars.Keys
    ensures e.x in st.vars && GenExpr(e, st) == (st, st.vars[e.x])
  {
    assert e.x in F.UsedExpr(e);
  }

  lemma BinaryIs(e: F.Expr, st: Gen)
    requires e.Binary? && F.UsedExpr(e) <= st.vars.Keys
    ensures F.UsedExpr(e.left) <= st.vars.Keys && F.UsedExpr(e.right) <= st.vars.Keys
    ensures var (st1, a) := GenExpr(e.left, st);
      var (st2, b) := GenExpr(e.right, st1);
      var (r, out) := GenExpr(e, st);
      out.text == "%" && out.num == st2.num + 1 && r == st2.(lines := st2.lines + [Binary(out, e.op, a, b)], num := st2.num + 1)
  {
    hide GenLiteral;
  }

  // ---- Renaming several variables ----

  // vars with the first k variables of q given the first k of the new names.
  function Rename(vars: map<Var, Name>, q: seq<Var>, names: seq<Name>, k: nat): (r: map<Var, Name>)
    requires k <= |q| && k <= |names|
    ensures (set x | x in q) <= vars.Keys ==> r.Keys == vars.Keys
  {
    if k == 0 then vars else Rename(vars, q, names, k - 1)[q[k - 1] := names[k - 1]]
  }

  // ---- Conditionals ----

  function TrueNames(q: seq<Var>, base: nat): (r: seq<Name>)
    ensures |r| == |q|
  {
    seq(|q|, k requires 0 <= k < |q| => Name("_" + q[k] + "%_true", base + 2 * k + 1))
  }

  function FalseNames(q: seq<Var>, base: nat): (r: seq<Name>)
    ensures |r| == |q|
  {
    seq(|q|, k requires 0 <= k < |q| => Name("_" + q[k] + "%_false", base + 2 * k + 2))
  }

  function SplitLine(x: Var, vars: map<Var, Name>, cond: Name, t: Name, f: Name): Line
    requires x in vars
  {
    Branch(t, Some(f), vars[x], cond)
  }

  function SplitLines(q: seq<Var>, vars: map<Var, Name>, cond: Name, base: nat): (r: seq<Line>)
    requires (set x | x in q) <= vars.Keys
    ensures |r| == |q|
  {
    seq(|q|, k requires 0 <= k < |q| =>
      SplitLine(q[k], vars, cond, TrueNames(q, base)[k], FalseNames(q, base)[k]))
  }

  // Merge the first k variables of q whose names differ after the two branches.
  function MergeVars(q: seq<Var>, tv: map<Var, Name>, fv: map<Var, Name>, st: Gen, k: nat): (r: Gen)
    requires k <= |q| && forall x :: x in q ==> x in tv && x in fv && x in st.vars
    ensures r.vars.Keys == st.vars.Keys && r.scope == st.scope && r.guard == st.guard
    ensures st.lines <= r.lines && st.num <= r.num
  {
    if k == 0 then st else
      var p := MergeVars(q, tv, fv, st, k - 1);
      var x := q[k - 1];
      if tv[x] == fv[x] then p
      else
        var phi := Name("_" + x + "_phi%", p.num + 1);
        p.(lines := p.lines + [Merge(phi, tv[x], fv[x])], vars := p.vars[x := phi], num := p.num + 1)
  }

  // One variable more.
  lemma MergeMore(q: seq<Var>, tv: map<Var, Name>, fv: map<Var, Name>, st: Gen, k: nat)
    requires k <= |q| && forall x :: x in q ==> x in tv && x in fv && x in st.vars
    ensures k == 0 ==> MergeVars(q, tv, fv, st, k) == st
    ensures k > 0 ==>
      var p, x := MergeVars(q, tv, fv, st, k - 1), q[k - 1];
      MergeVars(q, tv, fv, st, k) == if tv[x] == fv[x] then p else
        p.(lines := p.lines + [Merge(Name("_" + x + "_phi%", p.num + 1), tv[x], fv[x])],
           vars := p.vars[x := Name("_" + x + "_phi%", p.num + 1)], num := p.num + 1)
  {
  }

  // ---- Loops ----

  // The five names of the k-th loop variable: tagged input, last value, again, start and end.
  function Tagged(x: Var, base: nat, k: nat): Name { Name("_" + x + "_loop_input_tagged%", base + 5 * k + 1) }
  function Last(x: Var, base: nat, k: nat): Name { Name("_" + x + "_loop_last_value%", base + 5 * k + 2) }
  function Again(x: Var, base: nat, k: nat): Name { Name("_" + x + "_loop_again%", base + 5 * k + 3) }
  function Start(x: Var, base: nat, k: nat): Name { Name("_" + x + "_loop_start%", base + 5 * k + 4) }
  function End(x: Var, base: nat, k: nat): Name { Name("_" + x + "_loop_end%", base + 5 * k + 5) }

  function LoopNames(q: seq<Var>, base: nat, f: (Var, nat, nat) -> Name): (r: seq<Name>)
    ensures |r| == |q| && forall k :: 0 <= k < |q| ==> r[k] == f(q[k], base, k)
  {
    seq(|q|, k requires 0 <= k < |q| => f(q[k], base, k))
  }

  // The names that enter the loop: new tag, old tag, and the old tag sent under the new one.
  function NewTagName(n: nat): Name { Name("%_new_tag_with_old", n + 1) }
  function OldTagName(n: nat): Name { Name("%_old_tag_with_old", n + 2) }
  function OldUnderNew(n: nat): Name { Name("%_old_tag_with_new", n + 3) }

  function TagLines(first: Name, n: nat): seq<Line> {
    [NewTag(NewTagName(n), OldTagName(n), first), CopyTag(OldUnderNew(n), NewTagName(n), OldTagName(n))]
  }

  // The k-th variable enters the loop.
  function EntryLines(x: Var, prior: Name, n: nat, k: nat): (r: seq<Line>) {
    [CopyTag(Tagged(x, n + 3, k), NewTagName(n), prior),
     Merge(Start(x, n + 3, k), Tagged(x, n + 3, k), Last(x, n + 3, k))]
  }

  function EnterLines(q: seq<Var>, vars: map<Var, Name>, n: nat, k: nat): (r: seq<Line>)
    requires k <= |q| && forall x :: x in q ==> x in vars
  {
    if k == 0 then [] else
      EnterLines(q, vars, n, k - 1) + EntryLines(q[k - 1], vars[q[k - 1]], n, k - 1)
  }

  // The three names of the k-th loop variable behind the loop test.
  function Again0(x: Var, base: nat, k: nat): Name { Name("_" + x + "_true%", base + 3 * k + 1) }
  function Leave0(x: Var, base: nat, k: nat): Name { Name("_" + x + "_false%", base + 3 * k + 2) }
  function Reset(x: Var, base: nat, k: nat): Name { Name("_" + x + "_reset_il%", base + 3 * k + 3) }

  // The k-th variable goes round again or leaves the loop.
  function TurnLines(x: Var, n: nat, base: nat, cond: Name, k: nat): (r: seq<Line>) {
    [Branch(Again0(x, base, k), Some(Leave0(x, base, k)), Start(x, n + 3, k), cond),
     NextIter(Again(x, n + 3, k), Again0(x, base, k)),
     ResetIter(Reset(x, base, k), Leave0(x, base, k)),
     CopyTag(End(x, n + 3, k), OldUnderNew(n), Reset(x, base, k))]
  }

  function TestLines(q: seq<Var>, n: nat, base: nat, cond: Name, k: nat): (r: seq<Line>)
    requires k <= |q|
  {
    if k == 0 then [] else TestLines(q, n, base, cond, k - 1) + TurnLines(q[k - 1], n, base, cond, k - 1)
  }

  // The first k variables go back to the start of the loop.
  function BackLines(q: seq<Var>, vars: map<Var, Name>, n: nat, k: nat): (r: seq<Line>)
    requires k <= |q| && forall x :: x in q ==> x in vars
  {
    if k == 0 then [] else
      BackLines(q, vars, n, k - 1) + [Copy(Last(q[k - 1], n + 3, k - 1), vars[q[k - 1]])]
  }

  // ---- The parts of a conditional and of a loop ----

  // Up to the start of the true branch; `one` is the guarded literal 1.
  function Split(order: seq<Var>, cond: Name, st: Gen): (r: Gen)
    requires (set x | x in order) <= st.vars.Keys
    ensures r.vars.Keys == st.vars.Keys && r.scope == st.scope && r.guard.Some?
    ensures st.lines <= r.lines && st.num <= r.num
  {
    var base := st.num;
    var st1 := st.(lines := st.lines + SplitLines(order, st.vars, cond, base),
                   vars := Rename(st.vars, order, TrueNames(order, base), |order|),
                   num := base + 2 * |order| + 1);
    var one := Name("%_1", st1.num);
    var st2 := GenLiteral(1, one, st1);
    var gt, gf := Name("%_true", st2.num + 1), Name("%_false", st2.num + 2);
    st2.(lines := st2.lines + [Branch(gt, Some(gf), one, cond)], num := st2.num + 2, guard := Some(gt))
  }

  // The guard of the false branch, made together with that of the true one.
  function FalseGuard(split: Gen): Name { Name("%_false", split.num) }

  // Up to the start of the loop test.
  function Enter(order: seq<Var>, st: Gen): (r: Gen)
    requires |order| > 0 && (set x | x in order) <= st.vars.Keys
    ensures r.vars.Keys == st.vars.Keys && r.guard.None? && r.scope.Some?
    ensures st.lines <= r.lines && st.num <= r.num
  {
    var n, m := st.num, |order|;
    var cur := Name("_loop_current_tag%", n + 3 + 5 * m + 1);
    st.(lines := st.lines + (TagLines(st.vars[order[0]], n) + EnterLines(order, st.vars, n, m)
                 + [ReadTag(cur, Start(order[0], n + 3, 0))]),
        vars := Rename(st.vars, order, LoopNames(order, n + 3, Start), m),
        num := n + 3 + 5 * m + 1, scope := Some(cur), guard := None)
  }

  // From the loop test to the start of the body; n is the number the loop began with.
  function Test(order: seq<Var>, n: nat, cond: Name, st: Gen): (r: Gen)
    requires |order| > 0 && (set x | x in order) <= st.vars.Keys
    ensures r.vars.Keys == st.vars.Keys && r.guard.None? && r.scope.Some?
    ensures st.lines <= r.lines && st.num <= r.num
  {
    var base, m := st.num + 1, |order|;
    var next := Name("_loop_next_tag%", base);
    st.(lines := st.lines + ([ReadTag(next, Again(order[0], n + 3, 0))] + TestLines(order, n, base, cond, m)),
        vars := Rename(st.vars, order, LoopNames(order, n + 3, Again), m),
        num := base + 3 * m, scope := Some(next), guard := None)
  }

  // Close the loop.
  function Leave(order: seq<Var>, n: nat, st: Gen, outer: Gen): (r: Gen)
    requires (set x | x in order) <= st.vars.Keys
    ensures r.vars.Keys == st.vars.Keys && r.scope == outer.scope && r.guard == outer.guard
    ensures st.lines <= r.lines && st.num <= r.num
  {
    st.(lines := st.lines + BackLines(order, st.vars, n, |order|),
        vars := Rename(st.vars, order, LoopNames(order, n + 3, End), |order|),
        scope := outer.scope, guard := outer.guard)
  }

  // ---- Statements ----

  // The generator's states inside a conditional: after the condition, at the start and end of
  // either branch.
  datatype IfParts = IfParts(test: Gen, cond: Name, thn: Gen, thnEnd: Gen, els: Gen, elsEnd: Gen)

  function GenIf(s: F.Stmt, st: Gen): (p: IfParts)
    requires s.If? && F.Scoped(s, st.vars.Keys)
    ensures p.test.vars == st.vars && p.thn.vars.Keys == p.thnEnd.vars.Keys == st.vars.Keys
    ensures p.els.vars.Keys == p.elsEnd.vars.Keys == st.vars.Keys
    ensures p.elsEnd.scope == st.scope
    decreases s, 0
  {
    F.ScopedMore(s.thn, F.BranchVars(s), st.vars.Keys);
    F.ScopedMore(s.els, F.BranchVars(s), st.vars.Keys);
    F.AfterUsed(s.thn, st.vars.Keys);
    F.AfterUsed(s.els, st.vars.Keys);
    var (test, cond) := GenExpr(s.cond, st);
    var thn := Split(s.order, cond, test);
    var thnEnd := GenStmt(s.thn, thn);
    var els := thnEnd.(vars := Rename(test.vars, s.order, FalseNames(s.order, test.num), |s.order|),
                       guard := Some(FalseGuard(thn)));
    IfParts(test, cond, thn, thnEnd, els, GenStmt(s.els, els))
  }

  // The generator's states inside a loop: at the test, at the start and at the end of the body.
  datatype WhileParts = WhileParts(enter: Gen, test: Gen, cond: Name, body: Gen, bodyEnd: Gen)

  function GenWhile(s: F.Stmt, st: Gen): (p: WhileParts)
    requires s.While? && F.Scoped(s, st.vars.Keys)
    ensures p.enter.vars.Keys == p.body.vars.Keys == p.bodyEnd.vars.Keys == st.vars.Keys
    ensures p.test.vars == p.enter.vars
    decreases s, 0
  {
    F.ScopedMore(s.body, F.Used(s), st.vars.Keys);
    F.AfterUsed(s.body, st.vars.Keys);
    var enter := Enter(s.order, st);
    var (test, cond) := GenExpr(s.cond, enter);
    var body := Test(s.order, st.num, cond, test);
    WhileParts(enter, test, cond, body, GenStmt(s.body, body))
  }

  function GenStmt(s: F.Stmt, st: Gen): (r: Gen)
    requires F.Scoped(s, st.vars.Keys)
    ensures r.vars.Keys == F.After(s, st.vars.Keys)
    ensures r.scope == st.scope && r.guard == st.guard
    decreases s, 1
  {
    match s
    case Skip => st
    case Seq(a, b) => GenStmt(b, GenStmt(a, st))
    case Assign(x, e) =>
      var (st1, v) := GenExpr(e, st);
      var out := Name(x + "%", st1.num + 1);
      st1.(lines := st1.lines + [Copy(out, v)], vars := st1.vars[x := out], num := st1.num + 1)
    case If(_, _, _, _, merge) =>
      var p := GenIf(s, st);
      MergeVars(merge, p.thnEnd.vars, p.elsEnd.vars, p.elsEnd.(guard := st.guard), |merge|)
    case While(_, _, order) =>
      Leave(order, st.num, GenWhile(s, st).bodyEnd, st)
  }

  // A whole program: the statements from nothing, then OUTD for the variables of interest.
  const START: Gen := Gen([], map[], 0, None, None)

  function PrintLines(vars: map<Var, Name>, q: seq<Var>): seq<Line>
    requires forall x :: x in q ==> x in vars
  {
    seq(|q|, k requires 0 <= k < |q| => Output(vars[q[k]]))
  }

  function Compile(s: F.Stmt, q: seq<Var>): seq<Line>
    requires F.Scoped(s, {}) && forall x :: x in q ==> x in F.After(s, {})
  {
    assert START.vars.Keys == {};
    var st := GenStmt(s, START);
    st.lines + PrintLines(st.vars, q)
  }

  // ---- Generation only appends lines and only moves the number forward ----

  ghost predicate Grows(st: Gen, r: Gen) {
    st.lines <= r.lines && st.num <= r.num
  }

  lemma {:induction false} GenGrows(s: F.Stmt, st: Gen)
    requires F.Scoped(s, st.vars.Keys)
    ensures Grows(st, GenStmt(s, st))
    decreases s, 1
  {
    hide Split, Enter, Test, Leave, MergeVars, GenExpr, Rename;
    match s
    case Skip =>
    case Seq(a, b) =>
      GenGrows(a, st);
      GenGrows(b, GenStmt(a, st));
    case Assign(x, e) =>
    case If(_, _, _, _, _) => IfGrows(s, st);
    case While(_, _, _) => WhileGrows(s, st);
  }

  lemma {:induction false} IfGrows(s: F.Stmt, st: Gen)
    requires s.If? && F.Scoped(s, st.vars.Keys)
    ensures var p := GenIf(s, st);
      && Grows(st, p.test) && Grows(p.test, p.thn) && Grows(p.thn, p.thnEnd)
      && Grows(p.els, p.elsEnd) && Grows(p.elsEnd, GenStmt(s, st))
      && p.els.lines == p.thnEnd.lines && p.els.num == p.thnEnd.num
    decreases s, 0
  {
    hide Split, MergeVars, GenExpr, Rename;
    F.ScopedMore(s.thn, F.BranchVars(s), st.vars.Keys);
    F.ScopedMore(s.els, F.BranchVars(s), st.vars.Keys);
    var p := GenIf(s, st);
    GenGrows(s.thn, p.thn);
    GenGrows(s.els, p.els);
  }

  lemma {:induction false} WhileGrows(s: F.Stmt, st: Gen)
    requires s.While? && F.Scoped(s, st.vars.Keys)
    ensures var p := GenWhile(s, st);
      && Grows(st, p.enter) && Grows(p.enter, p.test) && Grows(p.test, p.body)
      && Grows(p.body, p.bodyEnd) && Grows(p.bodyEnd, GenStmt(s, st))
    decreases s, 0
  {
    hide Enter, Test, Leave, GenExpr;
    F.ScopedMore(s.body, F.Used(s), st.vars.Keys);
    GenGrows(s.body, GenWhile(s, st).body);
  }
}
