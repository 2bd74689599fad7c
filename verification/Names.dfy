// Which names the generator gives to which variables.
module Names {
  import F = Force
  import opened Tass
  import opened Codegen

  lemma {:induction false} RenameOf(vars: map<Var, Name>, q: seq<Var>, names: seq<Name>, k: nat, j: nat)
    requires k <= |q| && k <= |names| && j < k && F.Distinct(q)
    ensures q[j] in Rename(vars, q, names, k) && Rename(vars, q, names, k)[q[j]] == names[j]
    decreases k
  {
    if j < k - 1 { RenameOf(vars, q, names, k - 1, j); }
  }

  lemma {:induction false} RenameKeeps(vars: map<Var, Name>, q: seq<Var>, names: seq<Name>, k: nat, y: Var)
    requires k <= |q| && k <= |names| && y in vars && y !in q
    ensures y in Rename(vars, q, names, k) && Rename(vars, q, names, k)[y] == vars[y]
    decreases k
  {
    if k > 0 { RenameKeeps(vars, q, names, k - 1, y); }
  }

  lemma IndexIn(q: seq<Var>, s: set<Var>, x: Var) returns (k: nat)
    requires F.Enumerates(q, s) && x in s
    ensures k < |q| && q[k] == x
  {
    assert x in (set y | y in q);
    k :| k < |q| && q[k] == x;
  }

  lemma {:induction false} MergeKeeps(q: seq<Var>, tv: map<Var, Name>, fv: map<Var, Name>, st: Gen, k: nat, y: Var)
    requires k <= |q| && forall x :: x in q ==> x in tv && x in fv && x in st.vars
    requires y in st.vars && y !in q[..k]
    ensures MergeVars(q, tv, fv, st, k).vars[y] == st.vars[y]
    decreases k
  {
    if k > 0 {
      assert q[k - 1] in q[..k];
      assert forall x :: x in q[..k - 1] ==> x in q[..k];
      MergeKeeps(q, tv, fv, st, k - 1, y);
    }
  }

  // A statement leaves the names of the variables it does not use alone.
  lemma {:induction false} GenFrame(s: F.Stmt, st: Gen, y: Var)
    requires F.Scoped(s, st.vars.Keys) && y in st.vars && y !in F.Used(s)
    ensures y in GenStmt(s, st).vars && GenStmt(s, st).vars[y] == st.vars[y]
    decreases s
  {
    hide GenExpr, MergeVars, Rename, F.Enumerates;
    match s
    case Skip =>
    case Seq(a, b) =>
      GenFrame(a, st, y);
      GenFrame(b, GenStmt(a, st), y);
    case Assign(x, e) =>
    case If(_, _, _, _, _) => IfFrame(s, st, y);
    case While(_, _, _) => WhileFrame(s, st, y);
  }

  lemma Covered(q: seq<Var>, s: set<Var>, d: set<Var>)
    requires F.Enumerates(q, s) && s <= d
    ensures forall x :: x in q ==> x in d
    ensures (set x | x in q) <= d
  {
    assert forall x :: x in q ==> x in (set y | y in q);
  }

  lemma Absent(q: seq<Var>, s: set<Var>, y: Var)
    requires F.Enumerates(q, s) && y !in s
    ensures y !in q
  {
    assert (set x | x in q) == s;
  }

  lemma {:induction false} IfFrame(s: F.Stmt, st: Gen, y: Var)
    requires s.If? && F.Scoped(s, st.vars.Keys) && y in st.vars && y !in F.BranchVars(s)
    ensures y in GenStmt(s, st).vars && GenStmt(s, st).vars[y] == st.vars[y]
    decreases s, 0
  {
    hide GenExpr, F.Enumerates, Split, MergeVars, Rename, FalseNames;
    F.ScopedMore(s.thn, F.BranchVars(s), st.vars.Keys);
    F.ScopedMore(s.els, F.BranchVars(s), st.vars.Keys);
    var p := GenIf(s, st);
    Absent(s.order, F.BranchVars(s), y);
    Absent(s.merge, F.BranchVars(s), y);
    Covered(s.merge, F.BranchVars(s), st.vars.Keys);
    RenameKeeps(p.test.vars, s.order, FalseNames(s.order, p.test.num), |s.order|, y);
    GenFrame(s.els, p.els, y);
    MergeKeeps(s.merge, p.thnEnd.vars, p.elsEnd.vars, p.elsEnd.(guard := st.guard), |s.merge|, y);
  }

  lemma {:induction false} WhileFrame(s: F.Stmt, st: Gen, y: Var)
    requires s.While? && F.Scoped(s, st.vars.Keys) && y in st.vars && y !in F.Used(s)
    ensures y in GenStmt(s, st).vars && GenStmt(s, st).vars[y] == st.vars[y]
    decreases s, 0
  {
    hide GenExpr, F.Enumerates, Rename, EnterLines, TestLines, BackLines, TagLines, LoopNames;
    F.ScopedMore(s.body, F.Used(s), st.vars.Keys);
    var p := GenWhile(s, st);
    Absent(s.order, F.Used(s), y);
    RenameKeeps(st.vars, s.order, LoopNames(s.order, st.num + 3, Start), |s.order|, y);
    RenameKeeps(p.test.vars, s.order, LoopNames(s.order, st.num + 3, Again), |s.order|, y);
    GenFrame(s.body, p.body, y);
    RenameKeeps(p.bodyEnd.vars, s.order, LoopNames(s.order, st.num + 3, End), |s.order|, y);
  }
}
