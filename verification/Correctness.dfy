// The compiler is right, tag by tag: whatever supported set of tokens a compiled program has, the
// names of the variables carry what the lenient semantics computes from the tokens they start with.
module Correctness {
  import opened Words
  import F = Force
  import L = Lenient
  import opened Tass
  import opened Rules
  import opened Codegen
  import opened Names
  import opened Simulation
  import opened Conditionals
  import opened Loops

  // ---- The code of a loop ----

  function LoopOf(s: F.Stmt, st: Gen): Loop
    requires s.While? && F.Scoped(s, st.vars.Keys)
  {
    var p := GenWhile(s, st);
    Loop(s.order, st.vars, st.num, p.test.num + 1, p.cond, p.bodyEnd.vars)
  }

  lemma LoopFits(s: F.Stmt, st: Gen)
    requires s.While? && F.Scoped(s, st.vars.Keys)
    ensures LoopOf(s, st).Fits() && |s.order| > 0
    ensures forall k :: 0 <= k < |s.order| ==> s.order[k] in F.Used(s)
    ensures (set x | x in s.order) <= st.vars.Keys && forall x :: x in s.order ==> x in st.vars
  {
    hide GenExpr, Enter, Codegen.Test;
    Covered(s.order, F.Used(s), st.vars.Keys);
    forall k | 0 <= k < |s.order| ensures s.order[k] in F.Used(s) { assert s.order[k] in (set x | x in s.order); }
  }

  lemma WhileShape(s: F.Stmt, st: Gen)
    requires s.While? && F.Scoped(s, st.vars.Keys)
    ensures (set x | x in s.order) <= st.vars.Keys && |s.order| > 0
    ensures F.UsedExpr(s.cond) <= st.vars.Keys && F.Scoped(s.body, st.vars.Keys)
    ensures var p := GenWhile(s, st);
      && p.enter == Enter(s.order, st)
      && p.test == GenExpr(s.cond, p.enter).0 && p.cond == GenExpr(s.cond, p.enter).1
      && p.body == Codegen.Test(s.order, st.num, p.cond, p.test)
      && p.bodyEnd == GenStmt(s.body, p.body)
      && GenStmt(s, st) == Leave(s.order, st.num, p.bodyEnd, st)
  {
    hide GenExpr, Enter, Codegen.Test, Leave;
    LoopFits(s, st);
    F.ScopedMore(s.body, F.Used(s), st.vars.Keys);
  }

  lemma EnterCoded(P: seq<Line>, c: Loop, st: Gen, k: nat)
    requires c.Fits() && k < |c.q| && c.vars == st.vars && c.n == st.num && (set x | x in c.q) <= st.vars.Keys
    requires Enter(c.q, st).lines <= P
    ensures c.Draws(P)
    ensures ReadTag(Enter(c.q, st).scope.value, c.StartOf(0)) in P
    ensures CopyTag(c.TaggedOf(k), NewTagName(c.n), c.vars[c.q[k]]) in P
    ensures Merge(c.StartOf(k), c.TaggedOf(k), c.LastOf(k)) in P
  {
    hide Rename, LoopNames, EnterLines;
    var tags := TagLines(c.vars[c.q[0]], c.n);
    Appended(st.lines, tags + EnterLines(c.q, c.vars, c.n, |c.q|)
             + [ReadTag(Enter(c.q, st).scope.value, Start(c.q[0], c.n + 3, 0))], P);
    assert tags[0] in tags && tags[1] in tags;
    EnterHas(c.q, c.vars, c.n, |c.q|, k);
  }

  lemma TestCoded(P: seq<Line>, c: Loop, st: Gen, k: nat)
    requires c.Fits() && k < |c.q| && c.base == st.num + 1 && (set x | x in c.q) <= st.vars.Keys
    requires Codegen.Test(c.q, c.n, c.cond, st).lines <= P
    ensures ReadTag(Codegen.Test(c.q, c.n, c.cond, st).scope.value, c.AgainOf(0)) in P
    ensures Branch(c.OnOf(k), Some(c.OffOf(k)), c.StartOf(k), c.cond) in P
    ensures NextIter(c.AgainOf(k), c.OnOf(k)) in P
    ensures ResetIter(c.ResetOf(k), c.OffOf(k)) in P
    ensures CopyTag(c.EndOf(k), OldUnderNew(c.n), c.ResetOf(k)) in P
  {
    hide Rename, LoopNames, TestLines;
    Appended(st.lines, [ReadTag(Codegen.Test(c.q, c.n, c.cond, st).scope.value, Again(c.q[0], c.n + 3, 0))]
             + TestLines(c.q, c.n, c.base, c.cond, |c.q|), P);
    TestHas(c.q, c.n, c.base, c.cond, |c.q|, k);
  }

  lemma LeaveCoded(P: seq<Line>, c: Loop, st: Gen, outer: Gen, k: nat)
    requires c.Fits() && k < |c.q| && c.ends == st.vars && (set x | x in c.q) <= st.vars.Keys
    requires Leave(c.q, c.n, st, outer).lines <= P
    ensures Copy(c.LastOf(k), c.ends[c.q[k]]) in P
  {
    hide Rename, LoopNames, BackLines;
    Appended(st.lines, BackLines(c.q, st.vars, c.n, |c.q|), P);
    BackHas(c.q, st.vars, c.n, |c.q|, k);
  }

  lemma WhilePrefixes(P: seq<Line>, s: F.Stmt, st: Gen)
    requires s.While? && F.Scoped(s, st.vars.Keys) && GenStmt(s, st).lines <= P
    ensures var p := GenWhile(s, st);
      && p.enter.lines <= P && p.test.lines <= P && p.body.lines <= P && p.bodyEnd.lines <= P
  {
    hide GenExpr, Enter, Codegen.Test, Leave, GenWhile, GenStmt;
    WhileGrows(s, st);
    var p := GenWhile(s, st);
    Prefixes(p.bodyEnd.lines, GenStmt(s, st).lines, P);
    Prefixes(p.body.lines, p.bodyEnd.lines, P);
    Prefixes(p.test.lines, p.body.lines, P);
    Prefixes(p.enter.lines, p.test.lines, P);
  }

  // The lines of the k-th loop variable, and those that read the current tag
  lemma VariableCoded(P: seq<Line>, s: F.Stmt, st: Gen, k: nat)
    requires s.While? && F.Scoped(s, st.vars.Keys) && GenStmt(s, st).lines <= P && k < |s.order|
    ensures LoopOf(s, st).Fits() && LoopOf(s, st).Draws(P) && LoopOf(s, st).Carries(P, k)
    ensures ReadTag(GenWhile(s, st).enter.scope.value, LoopOf(s, st).StartOf(0)) in P
    ensures ReadTag(GenWhile(s, st).body.scope.value, LoopOf(s, st).AgainOf(0)) in P
  {
    hide GenExpr, Enter, Codegen.Test, Leave, F.Scoped, F.Enumerates, F.Used, GenStmt, GenWhile;
    hide Tagged, Last, Again, Start, End, Again0, Leave0, Reset, NewTagName, OldTagName, OldUnderNew;
    LoopFits(s, st);
    WhilePrefixes(P, s, st);
    WhileShape(s, st);
    var p, c := GenWhile(s, st), LoopOf(s, st);
    EnterCoded(P, c, st, k);
    TestCoded(P, c, p.test, k);
    LeaveCoded(P, c, p.bodyEnd, st, k);
    CarriesBy(c, P, k);
  }

  lemma LoopCoded(P: seq<Line>, s: F.Stmt, st: Gen)
    requires s.While? && F.Scoped(s, st.vars.Keys) && GenStmt(s, st).lines <= P
    ensures LoopOf(s, st).Coded(P)
  {
    hide GenWhile, GenStmt, F.Scoped;
    LoopFits(s, st);
    forall k: nat | k < |s.order|
      ensures LoopOf(s, st).Carries(P, k)
    {
      VariableCoded(P, s, st, k);
    }
    VariableCoded(P, s, st, 0);
  }

  // ---- The variables at the seams of a loop ----

  lemma EnterVars(T: iset<Token>, full: bool, c: Loop, st: Gen, u: set<Var>, ti: Tag, env: F.Env)
    requires F.Enumerates(c.q, u) && u <= st.vars.Keys && c.n == st.num && |c.q| > 0
    requires (set x | x in c.q) <= st.vars.Keys
    requires forall k: nat :: k < |c.q| ==> At(T, c.StartOf(k), ti, NumIn(env, c.q[k]), full)
    ensures VarsAt(T, Enter(c.q, st).vars, u, ti, env, full)
  {
    hide At, EnterLines, TagLines, Rename;
    var names := LoopNames(c.q, c.n + 3, Start);
    forall k | 0 <= k < |c.q|
      ensures At(T, names[k], ti, NumIn(env, c.q[k]), full)
    {
      assert names[k] == c.StartOf(k);
    }
    RenamedAt(T, full, c.q, u, st.vars, LoopNames(c.q, c.n + 3, Start), ti, env);
  }

  lemma BodyVars(T: iset<Token>, full: bool, c: Loop, st: Gen, u: set<Var>, ti: Tag, env: F.Env)
    requires F.Enumerates(c.q, u) && u <= st.vars.Keys && |c.q| > 0
    requires (set x | x in c.q) <= st.vars.Keys
    requires forall k: nat :: k < |c.q| ==> At(T, c.AgainOf(k), ti, NumIn(env, c.q[k]), full)
    ensures VarsAt(T, Codegen.Test(c.q, c.n, c.cond, st).vars, u, ti, env, full)
  {
    hide At, TestLines, Rename;
    var names := LoopNames(c.q, c.n + 3, Again);
    forall k | 0 <= k < |c.q|
      ensures At(T, names[k], ti, NumIn(env, c.q[k]), full)
    {
      assert names[k] == c.AgainOf(k);
    }
    RenamedAt(T, full, c.q, u, st.vars, LoopNames(c.q, c.n + 3, Again), ti, env);
  }

  lemma LeaveVars(T: iset<Token>, full: bool, c: Loop, st: Gen, outer: Gen, u: set<Var>, t: Tag, env: F.Env)
    requires F.Enumerates(c.q, u) && u <= st.vars.Keys && |c.q| > 0
    requires (set x | x in c.q) <= st.vars.Keys
    requires forall k: nat :: k < |c.q| ==> At(T, c.EndOf(k), t, NumIn(env, c.q[k]), full)
    ensures VarsAt(T, Leave(c.q, c.n, st, outer).vars, u, t, env, full)
  {
    hide At, BackLines, Rename;
    var names := LoopNames(c.q, c.n + 3, End);
    forall k | 0 <= k < |c.q|
      ensures At(T, names[k], t, NumIn(env, c.q[k]), full)
    {
      assert names[k] == c.EndOf(k);
    }
    RenamedAt(T, full, c.q, u, st.vars, LoopNames(c.q, c.n + 3, End), t, env);
  }

  lemma EnumeratesUsed(s: F.Stmt, st: Gen)
    requires s.While? && F.Scoped(s, st.vars.Keys)
    ensures F.Enumerates(s.order, F.Used(s)) && F.Used(s) <= st.vars.Keys && F.UsedExpr(s.cond) <= F.Used(s)
    ensures F.Scoped(s.body, F.Used(s)) && F.Used(s.body) <= F.Used(s)
  {
  }

  // A name that reads the tag of a variable makes literals fire where the variable is.
  lemma ScopeAt(P: seq<Line>, T: iset<Token>, full: bool, scope: Name, src: Name, t: Tag, w: Option<Word>)
    requires Ok(P, T, full) && ReadTag(scope, src) in P && At(T, src, t, w, full)
    ensures LiteralsAt(T, Some(scope), None, t, w.Some?, full)
  {
    ReadTagForm(P, T, scope, src);
    ReadTagAt(P, T, full, scope, src, t, w);
  }

  // If in tag ti the variables at the loop test are those of env, so is the context of the test.
  lemma TestContext(P: seq<Line>, T: iset<Token>, full: bool, s: F.Stmt, st: Gen, ti: Tag, env: F.Env)
    requires Ok(P, T, full) && s.While? && F.Scoped(s, st.vars.Keys) && GenStmt(s, st).lines <= P
    requires |s.order| > 0 && LoopOf(s, st).Fits()
    requires forall k: nat :: k < |s.order| ==> At(T, LoopOf(s, st).StartOf(k), ti, NumIn(env, s.order[k]), full)
    ensures VarsAt(T, GenWhile(s, st).enter.vars, F.Used(s), ti, env, full)
    ensures LiteralsAt(T, GenWhile(s, st).enter.scope, GenWhile(s, st).enter.guard, ti, L.TurnLive(s, env), full)
  {
    hide Ok, At, GenStmt, GenWhile, LiteralsAt, GenExpr, Enter, F.Scoped, F.Used, F.UsedExpr;
    WhileShape(s, st);
    VariableCoded(P, s, st, 0);
    EnumeratesUsed(s, st);
    var p, c := GenWhile(s, st), LoopOf(s, st);
    EnterVars(T, full, c, st, F.Used(s), ti, env);
    ScopeAt(P, T, full, p.enter.scope.value, c.StartOf(0), ti, NumIn(env, c.q[0]));
  }

  lemma AtTest(P: seq<Line>, T: iset<Token>, full: bool, s: F.Stmt, st: Gen, ti: Tag, env: F.Env)
    requires Ok(P, T, full) && s.While? && F.Scoped(s, st.vars.Keys) && GenStmt(s, st).lines <= P
    requires |s.order| > 0 && LoopOf(s, st).Fits()
    requires forall k: nat :: k < |s.order| ==> At(T, LoopOf(s, st).StartOf(k), ti, NumIn(env, s.order[k]), full)
    ensures At(T, LoopOf(s, st).cond, ti, NumOf(L.Test(s, env)), full)
  {
    hide Ok, At, GenStmt, GenWhile, LiteralsAt, GenExpr, L.Value, Enter, F.Scoped, F.Used, F.UsedExpr;
    WhileShape(s, st);
    WhilePrefixes(P, s, st);
    EnumeratesUsed(s, st);
    TestContext(P, T, full, s, st, ti, env);
    ExprCorrect(P, T, full, s.cond, GenWhile(s, st).enter, ti, env, L.TurnLive(s, env));
  }

  // If in tag ti the variables going round again are those of env, the body starts with env.
  lemma AtBody(P: seq<Line>, T: iset<Token>, full: bool, s: F.Stmt, st: Gen, ti: Tag, env: F.Env)
    requires Ok(P, T, full) && s.While? && F.Scoped(s, st.vars.Keys) && GenStmt(s, st).lines <= P
    requires |s.order| > 0 && LoopOf(s, st).Fits()
    requires forall k: nat :: k < |s.order| ==> At(T, LoopOf(s, st).AgainOf(k), ti, NumIn(env, s.order[k]), full)
    ensures VarsAt(T, GenWhile(s, st).body.vars, F.Used(s), ti, env, full)
    ensures LiteralsAt(T, GenWhile(s, st).body.scope, GenWhile(s, st).body.guard, ti, s.order[0] in env, full)
  {
    hide Ok, At, GenStmt, GenWhile, LiteralsAt, GenExpr, Codegen.Test, F.Scoped, F.Used, F.UsedExpr;
    WhileShape(s, st);
    VariableCoded(P, s, st, 0);
    EnumeratesUsed(s, st);
    var p, c := GenWhile(s, st), LoopOf(s, st);
    BodyVars(T, full, c, p.test, F.Used(s), ti, env);
    ScopeAt(P, T, full, p.body.scope.value, c.AgainOf(0), ti, NumIn(env, c.q[0]));
  }

  // ---- The main induction ----

  // Under one tag: compiled code turns the tokens of env into those of Run(s, env).
  lemma {:induction false} StmtCorrect(P: seq<Line>, T: iset<Token>, full: bool, s: F.Stmt, st: Gen, u: set<Var>,
                                       t: Tag, env: F.Env, live: bool)
    requires Ok(P, T, full) && F.Scoped(s, u) && u <= st.vars.Keys && F.Scoped(s, st.vars.Keys)
    requires GenStmt(s, st).lines <= P
    requires VarsAt(T, st.vars, u, t, env, full)
    requires LiteralsAt(T, st.scope, st.guard, t, live, full)
    ensures VarsAt(T, GenStmt(s, st).vars, F.After(s, u), t, L.Run(s, env, live), full)
    decreases s, 5, 0, 0
  {
    hide Ok, At, LiteralsAt, GenExpr, L.Value, F.Enumerates, GenIf, GenWhile;
    match s
    case Skip =>
    case Seq(a, b) => SeqCorrect(P, T, full, s, st, u, t, env, live);
    case Assign(x, e) => AssignCorrect(P, T, full, s, st, u, t, env, live);
    case If(_, _, _, _, _) => IfCorrect(P, T, full, s, st, u, t, env, live);
    case While(_, _, _) => WhileCorrect(P, T, full, s, st, u, t, env, live);
  }

  lemma {:induction false} SeqCorrect(P: seq<Line>, T: iset<Token>, full: bool, s: F.Stmt, st: Gen, u: set<Var>,
                                      t: Tag, env: F.Env, live: bool)
    requires s.Seq?
    requires Ok(P, T, full) && F.Scoped(s, u) && u <= st.vars.Keys && F.Scoped(s, st.vars.Keys)
    requires GenStmt(s, st).lines <= P
    requires VarsAt(T, st.vars, u, t, env, full)
    requires LiteralsAt(T, st.scope, st.guard, t, live, full)
    ensures VarsAt(T, GenStmt(s, st).vars, F.After(s, u), t, L.Run(s, env, live), full)
    decreases s, 4, 0, 0
  {
    hide Ok, At, VarsAt, LiteralsAt, GenExpr, L.Value, F.Enumerates, GenIf, GenWhile;
    var mid := GenStmt(s.first, st);
    GenGrows(s.rest, mid);
    Prefixes(mid.lines, GenStmt(s.rest, mid).lines, P);
    F.ScopedMore(s.first, u, st.vars.Keys);
    StmtCorrect(P, T, full, s.first, st, u, t, env, live);
    StmtCorrect(P, T, full, s.rest, mid, F.After(s.first, u), t, L.Run(s.first, env, live), live);
  }

  lemma AssignCorrect(P: seq<Line>, T: iset<Token>, full: bool, s: F.Stmt, st: Gen, u: set<Var>,
                      t: Tag, env: F.Env, live: bool)
    requires s.Assign?
    requires Ok(P, T, full) && F.Scoped(s, u) && u <= st.vars.Keys && F.Scoped(s, st.vars.Keys)
    requires GenStmt(s, st).lines <= P
    requires VarsAt(T, st.vars, u, t, env, full)
    requires LiteralsAt(T, st.scope, st.guard, t, live, full)
    ensures VarsAt(T, GenStmt(s, st).vars, F.After(s, u), t, L.Run(s, env, live), full)
  {
    hide Ok, At, LiteralsAt, GenExpr, L.Value, GenIf, GenWhile, MergeVars, Leave, L.Turn, L.Ends, L.Overlay, F.Enumerates;
    var (st1, v) := GenExpr(s.e, st);
    var out := Name(s.x + "%", st1.num + 1);
    LastLine(st1.lines, Copy(out, v), P);
    ExprCorrect(P, T, full, s.e, st, t, env, live);
    CopyAt(P, T, full, out, v, t, NumOf(L.Value(s.e, env, live)));
  }

  // ---- Conditionals ----

  lemma IfShape(s: F.Stmt, st: Gen)
    requires s.If? && F.Scoped(s, st.vars.Keys)
    ensures var u := F.BranchVars(s);
      && F.Enumerates(s.order, u) && F.Enumerates(s.merge, u) && u <= st.vars.Keys
      && (set x | x in s.order) <= st.vars.Keys && F.UsedExpr(s.cond) <= st.vars.Keys
      && F.Scoped(s.thn, u) && F.Scoped(s.els, u)
      && F.Scoped(s.thn, st.vars.Keys) && F.Scoped(s.els, st.vars.Keys)
      && F.After(s.thn, u) == u && F.After(s.els, u) == u
    ensures var p := GenIf(s, st);
      && p.test == GenExpr(s.cond, st).0 && p.cond == GenExpr(s.cond, st).1
      && p.thn == Split(s.order, p.cond, p.test)
      && p.thnEnd == GenStmt(s.thn, p.thn)
      && p.els == p.thnEnd.(vars := Rename(p.test.vars, s.order, FalseNames(s.order, p.test.num), |s.order|),
                            guard := Some(FalseGuard(p.thn)))
      && p.elsEnd == GenStmt(s.els, p.els)
    ensures var p := GenIf(s, st);
      && (forall x :: x in s.merge ==> x in p.thnEnd.vars && x in p.elsEnd.vars)
      && GenStmt(s, st)
        == MergeVars(s.merge, p.thnEnd.vars, p.elsEnd.vars, p.elsEnd.(guard := st.guard), |s.merge|)
  {
    hide GenExpr, Split, MergeVars, Rename, FalseNames, F.Enumerates;
    Covered(s.order, F.BranchVars(s), st.vars.Keys);
    Covered(s.merge, F.BranchVars(s), st.vars.Keys);
    F.ScopedMore(s.thn, F.BranchVars(s), st.vars.Keys);
    F.ScopedMore(s.els, F.BranchVars(s), st.vars.Keys);
    F.AfterUsed(s.thn, F.BranchVars(s));
    F.AfterUsed(s.els, F.BranchVars(s));
  }

  // Only the variables of the two blocks can need merging: any other has one name after both.
  lemma NothingElseToMerge(s: F.Stmt, st: Gen, y: Var)
    requires s.If? && F.Scoped(s, st.vars.Keys) && y in st.vars && y !in F.BranchVars(s)
    ensures GenIf(s, st).thnEnd.vars[y] == GenIf(s, st).elsEnd.vars[y] == st.vars[y]
  {
    hide GenExpr, GenIf, GenStmt, Split, F.Enumerates, F.Scoped, MergeVars, Rename, FalseNames, TrueNames;
    IfShape(s, st);
    var p := GenIf(s, st);
    var _, _ := SplitShape(s.order, p.cond, p.test);
    Absent(s.order, F.BranchVars(s), y);
    RenameKeeps(p.test.vars, s.order, TrueNames(s.order, p.test.num), |s.order|, y);
    RenameKeeps(p.test.vars, s.order, FalseNames(s.order, p.test.num), |s.order|, y);
    GenFrame(s.thn, p.thn, y);
    GenFrame(s.els, p.els, y);
  }

  lemma IfPrefixes(P: seq<Line>, s: F.Stmt, st: Gen)
    requires s.If? && F.Scoped(s, st.vars.Keys) && GenStmt(s, st).lines <= P
    ensures var p := GenIf(s, st);
      p.test.lines <= P && p.thn.lines <= P && p.thnEnd.lines <= P && p.elsEnd.lines <= P
  {
    hide GenExpr, Split, MergeVars, GenIf, GenStmt;
    IfGrows(s, st);
    var p := GenIf(s, st);
    Prefixes(p.elsEnd.lines, GenStmt(s, st).lines, P);
    Prefixes(p.els.lines, p.elsEnd.lines, P);
    Prefixes(p.thn.lines, p.thnEnd.lines, P);
    Prefixes(p.test.lines, p.thn.lines, P);
  }

  lemma {:induction false} IfCorrect(P: seq<Line>, T: iset<Token>, full: bool, s: F.Stmt, st: Gen, u: set<Var>,
                                     t: Tag, env: F.Env, live: bool)
    requires s.If?
    requires Ok(P, T, full) && F.Scoped(s, u) && u <= st.vars.Keys && F.Scoped(s, st.vars.Keys)
    requires GenStmt(s, st).lines <= P
    requires VarsAt(T, st.vars, u, t, env, full)
    requires LiteralsAt(T, st.scope, st.guard, t, live, full)
    ensures VarsAt(T, GenStmt(s, st).vars, F.After(s, u), t, L.Run(s, env, live), full)
    decreases s, 4, 0, 0
  {
    hide Ok, At, LiteralsAt, GenExpr, L.Value, F.Enumerates, GenIf, GenStmt, L.Run, Split, MergeVars, Rename;
    var b := F.BranchVars(s);
    BranchesCorrect(P, T, full, s, st, t, env, live);
    forall x | x in u
      ensures x in GenStmt(s, st).vars
      ensures At(T, GenStmt(s, st).vars[x], t, NumIn(L.Run(s, env, live), x), full)
    {
      if x in b {
        MergedCorrect(P, T, full, s, st, t, env, live, x);
      } else {
        IfFrame(s, st, x);
        IfRun(s, env, live, x);
      }
    }
  }

  ghost function BranchRun(s: F.Stmt, env: F.Env, live: bool, branch: bool): F.Env
    requires s.If?
  {
    var v := L.Value(s.cond, env, live);
    L.Run(if branch then s.thn else s.els, BranchEnv(env, F.BranchVars(s), Takes(v, branch)), live && Takes(v, branch))
  }

  lemma {:induction false} BranchesCorrect(P: seq<Line>, T: iset<Token>, full: bool, s: F.Stmt, st: Gen,
                                           t: Tag, env: F.Env, live: bool)
    requires s.If? && Ok(P, T, full) && F.Scoped(s, st.vars.Keys) && GenStmt(s, st).lines <= P
    requires VarsAt(T, st.vars, F.BranchVars(s) + F.UsedExpr(s.cond), t, env, full)
    requires LiteralsAt(T, st.scope, st.guard, t, live, full)
    ensures VarsAt(T, GenIf(s, st).thnEnd.vars, F.BranchVars(s), t, BranchRun(s, env, live, true), full)
    ensures VarsAt(T, GenIf(s, st).elsEnd.vars, F.BranchVars(s), t, BranchRun(s, env, live, false), full)
    decreases s, 3, 0, 0
  {
    hide Ok, At, LiteralsAt, GenExpr, L.Value, F.Enumerates, GenIf, GenStmt, L.Run, Split, MergeVars, Rename;
    hide FalseNames, BranchEnv, F.Scoped;
    var p, b, v := GenIf(s, st), F.BranchVars(s), L.Value(s.cond, env, live);
    IfShape(s, st);
    IfPrefixes(P, s, st);
    ExprCorrect(P, T, full, s.cond, st, t, env, live);
    SplitCorrect(P, T, full, s.order, b, p.cond, p.test, t, env, live, v);
    StmtCorrect(P, T, full, s.thn, p.thn, b, t, BranchEnv(env, b, Takes(v, true)), live && Takes(v, true));
    StmtCorrect(P, T, full, s.els, p.els, b, t, BranchEnv(env, b, Takes(v, false)), live && Takes(v, false));
  }

  lemma MergedCorrect(P: seq<Line>, T: iset<Token>, full: bool, s: F.Stmt, st: Gen, t: Tag, env: F.Env, live: bool, x: Var)
    requires s.If? && Ok(P, T, full) && F.Scoped(s, st.vars.Keys) && GenStmt(s, st).lines <= P
    requires x in F.BranchVars(s)
    requires VarsAt(T, GenIf(s, st).thnEnd.vars, F.BranchVars(s), t, BranchRun(s, env, live, true), full)
    requires VarsAt(T, GenIf(s, st).elsEnd.vars, F.BranchVars(s), t, BranchRun(s, env, live, false), full)
    ensures x in GenStmt(s, st).vars
    ensures At(T, GenStmt(s, st).vars[x], t, NumIn(L.Run(s, env, live), x), full)
  {
    hide Ok, At, GenExpr, L.Value, GenIf, GenStmt, L.Run, Split, MergeVars, Rename, FalseNames;
    IfShape(s, st);
    IfRun(s, env, live, x);
    var p := GenIf(s, st);
    var j := IndexIn(s.merge, F.BranchVars(s), x);
    MergedAt(P, T, full, s.merge, p.thnEnd.vars, p.elsEnd.vars, p.elsEnd.(guard := st.guard), |s.merge|, j, t,
             NumIn(BranchRun(s, env, live, true), x), NumIn(BranchRun(s, env, live, false), x));
  }

  // ---- Loops ----

  // The start of every turn: by induction on the turns.
  lemma {:induction false} TurnCorrect(P: seq<Line>, T: iset<Token>, full: bool, s: F.Stmt, st: Gen,
                                       a: Area, env: F.Env, i: nat)
    requires Ok(P, T, full) && s.While? && F.Scoped(s, st.vars.Keys) && GenStmt(s, st).lines <= P
    requires |s.order| > 0 && LoopOf(s, st).Coded(P)
    requires Enters(T, LoopOf(s, st), a, env, full)
    ensures forall k: nat :: k < |s.order| ==>
      At(T, LoopOf(s, st).StartOf(k), Tag(a, i), NumIn(L.Turn(s, env, i), s.order[k]), full)
    decreases s, 0, i, 2
  {
    hide Ok, At, GenExpr, L.Value, GenWhile, GenStmt, L.Run, L.Turn, L.Test;
    var c := LoopOf(s, st);
    LoopFits(s, st);
    BodyTurn(P, T, full, s, st, a, env, i);
    forall k: nat | k < |s.order|
      ensures At(T, c.StartOf(k), Tag(a, i), NumIn(L.Turn(s, env, i), s.order[k]), full)
    {
      TurnValue(s, env, i, s.order[k]);
      var outer := if i == 0 && c.q[0] in env then NumIn(env, c.q[k]) else None;
      var back := if i == 0 then None else NumIn(L.Turn(s, env, i), s.order[k]);
      StartAt(P, T, full, c, k, Tag(a, i), outer, back);
    }
  }

  lemma TurnValue(s: F.Stmt, env: F.Env, i: nat, x: Var)
    requires s.While? && |s.order| > 0 && x in F.Used(s)
    ensures i == 0 ==> NumIn(L.Turn(s, env, i), x) == if s.order[0] in env then NumIn(env, x) else None
  {
    hide L.Run, L.Test;
  }

  // What enters the body in turn i: the variables of the turn before, if its test held.
  ghost function BodyEnv(s: F.Stmt, env: F.Env, i: nat): F.Env
    requires s.While? && |s.order| > 0
  {
    if i == 0 then map[] else
      var prev := L.Turn(s, env, i - 1);
      if Takes(L.Test(s, prev), true) then prev else map[]
  }

  lemma BodyValue(s: F.Stmt, env: F.Env, i: nat, x: Var)
    requires s.While? && |s.order| > 0 && x in F.Used(s)
    ensures var b := BodyEnv(s, env, i);
      NumIn(L.Run(s.body, b, s.order[0] in b), x) == if i == 0 then None else NumIn(L.Turn(s, env, i), x)
  {
    hide L.Test;
    L.NothingRuns(s.body);
  }

  lemma {:induction false} AgainTurn(P: seq<Line>, T: iset<Token>, full: bool, s: F.Stmt, st: Gen,
                                     a: Area, env: F.Env, i: nat)
    requires Ok(P, T, full) && s.While? && F.Scoped(s, st.vars.Keys) && GenStmt(s, st).lines <= P
    requires |s.order| > 0 && LoopOf(s, st).Coded(P)
    requires Enters(T, LoopOf(s, st), a, env, full)
    ensures forall k: nat :: k < |s.order| ==>
      At(T, LoopOf(s, st).AgainOf(k), Tag(a, i), NumIn(BodyEnv(s, env, i), s.order[k]), full)
    decreases s, 0, i, 0
  {
    hide Ok, At, GenExpr, L.Value, GenWhile, GenStmt, L.Run, L.Turn, L.Test;
    var c := LoopOf(s, st);
    if i == 0 {
      forall k: nat | k < |s.order|
        ensures At(T, c.AgainOf(k), Tag(a, i), NumIn(BodyEnv(s, env, i), s.order[k]), full)
      {
        AgainZero(P, T, full, c, k, a);
      }
    } else {
      var prev := L.Turn(s, env, i - 1);
      TurnCorrect(P, T, full, s, st, a, env, i - 1);
      AtTest(P, T, full, s, st, Tag(a, i - 1), prev);
      forall k: nat | k < |s.order|
        ensures At(T, c.AgainOf(k), Tag(a, i), NumIn(BodyEnv(s, env, i), s.order[k]), full)
      {
        TestedAt(P, T, full, c, k, a, i - 1, NumIn(prev, s.order[k]), L.Test(s, prev));
      }
    }
  }

  // What the body delivers to the start of turn i: nothing in turn 0.
  lemma {:induction false} BodyTurn(P: seq<Line>, T: iset<Token>, full: bool, s: F.Stmt, st: Gen,
                                    a: Area, env: F.Env, i: nat)
    requires Ok(P, T, full) && s.While? && F.Scoped(s, st.vars.Keys) && GenStmt(s, st).lines <= P
    requires |s.order| > 0 && LoopOf(s, st).Coded(P)
    requires Enters(T, LoopOf(s, st), a, env, full)
    ensures forall k: nat :: k < |s.order| ==>
      At(T, LoopOf(s, st).ends[s.order[k]], Tag(a, i),
         if i == 0 then None else NumIn(L.Turn(s, env, i), s.order[k]), full)
    decreases s, 0, i, 1
  {
    hide Ok, At, LiteralsAt, GenExpr, GenWhile, GenStmt, L.Value, L.Run, L.Turn, L.Test, F.Scoped, BodyEnv;
    var p, c, b := GenWhile(s, st), LoopOf(s, st), BodyEnv(s, env, i);
    var ti, u := Tag(a, i), F.Used(s);
    AgainTurn(P, T, full, s, st, a, env, i);
    AtBody(P, T, full, s, st, ti, b);
    EnumeratesUsed(s, st);
    WhileShape(s, st);
    WhilePrefixes(P, s, st);
    LoopFits(s, st);
    F.AfterUsed(s.body, u);
    StmtCorrect(P, T, full, s.body, p.body, u, ti, b, s.order[0] in b);
    forall k: nat | k < |s.order|
      ensures At(T, c.ends[s.order[k]], ti, if i == 0 then None else NumIn(L.Turn(s, env, i), s.order[k]), full)
    {
      BodyValue(s, env, i, s.order[k]);
    }
  }

  // Under the loop's tag the way out of the k-th variable carries its value of the last turn.
  lemma {:induction false} OffCorrect(P: seq<Line>, T: iset<Token>, full: bool, s: F.Stmt, st: Gen,
                                      a: Area, env: F.Env, k: nat, i: nat)
    requires Ok(P, T, full) && s.While? && F.Scoped(s, st.vars.Keys) && GenStmt(s, st).lines <= P
    requires k < |s.order| && LoopOf(s, st).Coded(P)
    requires Enters(T, LoopOf(s, st), a, env, full)
    ensures At(T, LoopOf(s, st).OffOf(k), Tag(a, i),
               if L.Ends(s, env, i) then NumIn(L.Turn(s, env, i), s.order[k]) else None, full)
    decreases s, 1, 0, 0
  {
    hide Ok, At, GenExpr, L.Value, GenWhile, GenStmt, L.Run, L.Turn, L.Test;
    var c := LoopOf(s, st);
    var w := L.Turn(s, env, i);
    TurnCorrect(P, T, full, s, st, a, env, i);
    AtTest(P, T, full, s, st, Tag(a, i), w);
    TestedAt(P, T, full, c, k, a, i, NumIn(w, s.order[k]), L.Test(s, w));
  }

  // The turn in which x leaves the loop, if it does.
  ghost function ExitTurn(s: F.Stmt, env: F.Env, x: Var): Option<nat>
    requires s.While? && |s.order| > 0
  {
    if i: nat :| L.Ends(s, env, i) && x in L.Turn(s, env, i) then Some(i) else None
  }

  lemma ExitValue(s: F.Stmt, env: F.Env, live: bool, x: Var)
    requires s.While? && |s.order| > 0 && x in F.Used(s)
    ensures var e := ExitTurn(s, env, x);
      NumIn(L.Run(s, env, live), x) == if e.Some? then NumIn(L.Turn(s, env, e.value), x) else None
    ensures var e := ExitTurn(s, env, x); e.Some? ==> L.Ends(s, env, e.value) && x in L.Turn(s, env, e.value)
    ensures forall i: nat :: L.Ends(s, env, i) && x in L.Turn(s, env, i) ==> ExitTurn(s, env, x) == Some(i)
  {
    hide L.Test, L.Turn;
    forall i: nat, j: nat | L.Ends(s, env, i) && L.Ends(s, env, j) ensures i == j { L.EndsOnce(s, env, i, j); }
    if i: nat :| L.Ends(s, env, i) { L.EndsAt(s, env, i); }
  }

  // A variable only leaves a loop that was entered.
  lemma {:induction false} NotEntered(s: F.Stmt, env: F.Env, i: nat)
    requires s.While? && |s.order| > 0 && s.order[0] !in env
    ensures L.Turn(s, env, i) == map[]
    decreases i
  {
    hide L.Value, L.Run;
    L.NoValue(s.cond);
    if i > 0 { NotEntered(s, env, i - 1); }
  }

  lemma {:induction false} EndCorrect(P: seq<Line>, T: iset<Token>, full: bool, s: F.Stmt, st: Gen,
                                      t: Tag, env: F.Env, live: bool, k: nat)
    requires Ok(P, T, full) && s.While? && F.Scoped(s, st.vars.Keys) && GenStmt(s, st).lines <= P
    requires k < |s.order| && LoopOf(s, st).Coded(P) && s.order[k] in F.Used(s)
    requires forall j: nat :: j < |s.order| ==> At(T, st.vars[s.order[j]], t, NumIn(env, s.order[j]), full)
    ensures At(T, LoopOf(s, st).EndOf(k), t, NumIn(L.Run(s, env, live), s.order[k]), full)
    decreases s, 3, 0, 0
  {
    hide Ok, At, GenExpr, L.Value, GenWhile, GenStmt, L.Run, L.Turn, L.Test, SentFrom, L.Ends, ExitTurn;
    var c, x := LoopOf(s, st), s.order[k];
    var e, entered := ExitTurn(s, env, x), s.order[0] in env;
    ExitValue(s, env, live, x);
    var w := if e.Some? then Num(L.Turn(s, env, e.value)[x]) else Num(0);
    if e.Some? && !entered { NotEntered(s, env, e.value); }
    assert OnlyIter(T, c.OffOf(k), Inside(c, t), e, w, full) by {
      EntersInside(P, T, full, c, t, env);
      OffOnly(P, T, full, s, st, Inside(c, t), env, k, e, w);
    }
    Drawn(P, T, full, c, t, NumIn(env, s.order[0]));
    OldUnderNewAt(P, T, full, c, t, entered);
    hide OnlyIter;
    LeavesAt(P, T, full, c, t, entered, k, e, w);
  }

  lemma {:induction false} OffOnly(P: seq<Line>, T: iset<Token>, full: bool, s: F.Stmt, st: Gen,
                                   a: Area, env: F.Env, k: nat, e: Option<nat>, w: Word)
    requires Ok(P, T, full) && s.While? && F.Scoped(s, st.vars.Keys) && GenStmt(s, st).lines <= P
    requires k < |s.order| && LoopOf(s, st).Coded(P)
    requires Enters(T, LoopOf(s, st), a, env, full)
    requires forall i: nat :: L.Ends(s, env, i) && s.order[k] in L.Turn(s, env, i) ==>
      e == Some(i) && w == Num(L.Turn(s, env, i)[s.order[k]])
    requires e.Some? ==> L.Ends(s, env, e.value) && s.order[k] in L.Turn(s, env, e.value)
    ensures OnlyIter(T, LoopOf(s, st).OffOf(k), a, e, w, full)
    decreases s, 2, 0, 0
  {
    hide Ok, GenExpr, L.Value, GenWhile, GenStmt, L.Run, L.Turn, L.Test, L.Ends;
    var c := LoopOf(s, st);
    forall i: nat
      ensures At(T, c.OffOf(k), Tag(a, i),
                 if L.Ends(s, env, i) then NumIn(L.Turn(s, env, i), s.order[k]) else None, full)
    {
      OffCorrect(P, T, full, s, st, a, env, k, i);
    }
  }

  lemma {:induction false} WhileCorrect(P: seq<Line>, T: iset<Token>, full: bool, s: F.Stmt, st: Gen, u: set<Var>,
                                        t: Tag, env: F.Env, live: bool)
    requires s.While?
    requires Ok(P, T, full) && F.Scoped(s, u) && u <= st.vars.Keys && F.Scoped(s, st.vars.Keys)
    requires GenStmt(s, st).lines <= P
    requires VarsAt(T, st.vars, u, t, env, full)
    requires LiteralsAt(T, st.scope, st.guard, t, live, full)
    ensures VarsAt(T, GenStmt(s, st).vars, F.After(s, u), t, L.Run(s, env, live), full)
    decreases s, 4, 0, 0
  {
    hide Ok, At, LiteralsAt, GenExpr, L.Value, GenWhile, GenStmt, L.Run, Leave;
    var p, c, r := GenWhile(s, st), LoopOf(s, st), L.Run(s, env, live);
    LoopFits(s, st);
    LoopCoded(P, s, st);
    EnumeratesUsed(s, st);
    WhileShape(s, st);
    forall k: nat | k < |s.order|
      ensures At(T, c.EndOf(k), t, NumIn(r, s.order[k]), full)
    {
      EndCorrect(P, T, full, s, st, t, env, live, k);
    }
    LeaveVars(T, full, c, p.bodyEnd, st, F.Used(s), t, r);
    forall y | y in u && y !in F.Used(s)
      ensures y in GenStmt(s, st).vars && At(T, GenStmt(s, st).vars[y], t, NumIn(r, y), full)
    {
      WhileFrame(s, st, y);
      Untouched(s, env, live, y);
    }
  }

  lemma Untouched(s: F.Stmt, env: F.Env, live: bool, y: Var)
    requires s.While? && y !in F.Used(s)
    ensures NumIn(L.Run(s, env, live), y) == NumIn(env, y)
  {
    hide L.Turn, L.Ends;
  }
}
