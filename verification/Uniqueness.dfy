// In a compiled program every token has exactly one way to be made.
module Uniqueness {
  import opened Words
  import F = Force
  import L = Lenient
  import opened Tass
  import opened Rules
  import opened Codegen
  import opened Simulation
  import opened Conditionals
  import opened Loops
  import opened Correctness

  // At most one word per tag.
  ghost predicate SingleValued(T: iset<Token>, n: Name) {
    forall x, y :: x in T && y in T && x.name == y.name == n && x.tag == y.tag ==> x == y
  }

  // A line makes the tokens of one name under one tag in one way only.
  ghost predicate Sole(T: iset<Token>, l: Line) {
    forall i, j, x, y :: Yields(l, i, T, x) && Yields(l, j, T, y) && x.name == y.name && x.tag == y.tag ==> i == j
  }

  ghost predicate Good(T: iset<Token>, l: Line) {
    Sole(T, l) && (l.Merge? ==> l.a != l.b) && forall n :: n in Ins(l) ==> SingleValued(T, n)
  }

  // Every line added between two states of the generator is good.
  ghost predicate GoodFrom(T: iset<Token>, a: Gen, b: Gen) {
    a.lines <= b.lines && forall k :: |a.lines| <= k < |b.lines| ==> Good(T, b.lines[k])
  }

  lemma GoodTrans(T: iset<Token>, a: Gen, b: Gen, c: Gen)
    requires GoodFrom(T, a, b) && GoodFrom(T, b, c)
    ensures GoodFrom(T, a, c)
  {
    forall k | |a.lines| <= k < |c.lines|
      ensures Good(T, c.lines[k])
    {
      if k < |b.lines| { assert c.lines[k] == b.lines[k]; }
    }
  }

  lemma GoodLines(T: iset<Token>, a: Gen, b: Gen, lines: seq<Line>)
    requires b.lines == a.lines + lines && forall l :: l in lines ==> Good(T, l)
    ensures GoodFrom(T, a, b)
  {
  }

  // ---- Lines that are good if their inputs are single-valued ----

  lemma PlainGood(T: iset<Token>, l: Line)
    requires l.Literal? || l.Copy? || l.Binary? || l.Branch? || l.NewTag? || l.NextIter? || l.ReadTag? || l.Output?
    requires forall n :: n in Ins(l) ==> SingleValued(T, n)
    ensures Good(T, l)
  {
    forall i, j, x, y | Yields(l, i, T, x) && Yields(l, j, T, y) && x.name == y.name && x.tag == y.tag
      ensures i == j
    {
      assert !i.Nothing? ==> i.x.name in Ins(l);
      assert i.Two? ==> i.y.name in Ins(l);
      if l.NextIter? {
        assert i.x.tag == Tag(x.tag.area, x.tag.iter - 1) && j.x.tag == Tag(y.tag.area, y.tag.iter - 1);
      }
    }
  }

  // The names a good line defines are single-valued.
  lemma SoleSingle(P: seq<Line>, T: iset<Token>, l: Line, n: Name)
    requires Ok(P, T, false) && l in P && Sole(T, l) && n in Outs(l)
    ensures SingleValued(T, n)
  {
    forall x, y | x in T && y in T && x.name == y.name == n && x.tag == y.tag
      ensures x == y
    {
      var i := From(P, T, l, x);
      var j := From(P, T, l, y);
      assert i == j;
      OnePerName(l, i, x, y);
    }
  }

  lemma OnePerName(l: Line, ins: Inputs, x: Token, y: Token)
    requires Matched(l, ins) && OutsDiffer(l) && x in Emit(l, ins) && y in Emit(l, ins) && x.name == y.name
    ensures x == y
  {
  }

  // ---- Lines with conditions of their own ----

  lemma LiteralTagGood(T: iset<Token>, out: Name, scope: Name, n: Data)
    requires CarriesOwnTag(T, scope)
    ensures Good(T, CopyTagLit(out, scope, n))
  {
  }

  ghost predicate Exclusive(T: iset<Token>, a: Name, b: Name) {
    forall t, v, w :: !(Token(a, t, v) in T && Token(b, t, w) in T)
  }

  lemma MergeGood(T: iset<Token>, out: Name, a: Name, b: Name)
    requires a != b && SingleValued(T, a) && SingleValued(T, b) && Exclusive(T, a, b)
    ensures Good(T, Merge(out, a, b))
  {
  }

  ghost predicate OneSender(T: iset<Token>, tg: Name) {
    forall t, r, s :: Token(tg, r, TagWord(t)) in T && Token(tg, s, TagWord(t)) in T ==> r == s
  }

  lemma CopyTagGood(T: iset<Token>, out: Name, tg: Name, src: Name)
    requires SingleValued(T, tg) && SingleValued(T, src) && OneSender(T, tg)
    ensures Good(T, CopyTag(out, tg, src))
  {
  }

  ghost predicate OneIter(T: iset<Token>, src: Name) {
    forall a, i: nat, j: nat, v, w :: Token(src, Tag(a, i), v) in T && Token(src, Tag(a, j), w) in T ==> i == j
  }

  lemma ResetGood(T: iset<Token>, out: Name, src: Name)
    requires SingleValued(T, src) && OneIter(T, src)
    ensures Good(T, ResetIter(out, src))
  {
    var l := ResetIter(out, src);
    forall i, j, x, y | Yields(l, i, T, x) && Yields(l, j, T, y) && x.name == y.name && x.tag == y.tag
      ensures i == j
    {
      assert i.x == Token(src, Tag(x.tag.area, i.x.tag.iter), i.x.word);
      assert j.x == Token(src, Tag(x.tag.area, j.x.tag.iter), j.x.word);
    }
  }

  // ---- Contexts under every tag ----

  ghost predicate ContextAt(T: iset<Token>, vars: map<Var, Name>, scope: Option<Name>, guard: Option<Name>,
                            u: set<Var>, t: Tag, env: F.Env, live: bool)
  {
    VarsAt(T, vars, u, t, env, false) && LiteralsAt(T, scope, guard, t, live, false)
  }

  ghost predicate HasContext(T: iset<Token>, st: Gen, u: set<Var>, t: Tag) {
    exists env, live :: ContextAt(T, st.vars, st.scope, st.guard, u, t, env, live)
  }

  ghost predicate Everywhere(T: iset<Token>, st: Gen, u: set<Var>) {
    forall t :: HasContext(T, st, u, t)
  }

  ghost predicate Bounded(T: iset<Token>, n: Name, t: Tag) {
    exists w :: At(T, n, t, w, false)
  }

  lemma Context(T: iset<Token>, st: Gen, u: set<Var>, t: Tag) returns (env: F.Env, live: bool)
    requires Everywhere(T, st, u)
    ensures VarsAt(T, st.vars, u, t, env, false) && LiteralsAt(T, st.scope, st.guard, t, live, false)
  {
    assert HasContext(T, st, u, t);
    env, live :| ContextAt(T, st.vars, st.scope, st.guard, u, t, env, live);
  }

  lemma FewerVars(T: iset<Token>, st: Gen, u: set<Var>, w: set<Var>)
    requires Everywhere(T, st, u) && w <= u
    ensures Everywhere(T, st, w)
  {
    hide At, LiteralsAt;
    forall t
      ensures HasContext(T, st, w, t)
    {
      var env, live := Context(T, st, u, t);
      assert ContextAt(T, st.vars, st.scope, st.guard, w, t, env, live);
    }
  }

  lemma SingleFromAt(T: iset<Token>, n: Name)
    requires forall t :: Bounded(T, n, t)
    ensures SingleValued(T, n)
  {
    forall x, y | x in T && y in T && x.name == y.name == n && x.tag == y.tag
      ensures x == y
    {
      assert Bounded(T, n, x.tag);
      assert x == Token(n, x.tag, x.word) && y == Token(n, x.tag, y.word);
    }
  }

  lemma VarSingle(T: iset<Token>, st: Gen, u: set<Var>, x: Var)
    requires Everywhere(T, st, u) && x in u && x in st.vars
    ensures SingleValued(T, st.vars[x])
  {
    hide LiteralsAt;
    forall t
      ensures Bounded(T, st.vars[x], t)
    {
      var env, live := Context(T, st, u, t);
      assert At(T, st.vars[x], t, NumIn(env, x), false);
    }
    SingleFromAt(T, st.vars[x]);
  }

  lemma GuardSingle(T: iset<Token>, st: Gen, u: set<Var>)
    requires Everywhere(T, st, u)
    ensures st.guard.Some? ==> SingleValued(T, st.guard.value)
    ensures st.scope.Some? ==> CarriesOwnTag(T, st.scope.value)
  {
    if st.guard.Some? {
      forall t
        ensures Bounded(T, st.guard.value, t)
      {
        var env, live := Context(T, st, u, t);
        assert At(T, st.guard.value, t, if live then Some(Num(1)) else None, false);
      }
      SingleFromAt(T, st.guard.value);
    }
    var env, live := Context(T, st, u, NO_TAG);
  }

  // ---- Expressions ----

  lemma RawGood(T: iset<Token>, st: Gen, u: set<Var>, out: Name, n: Data)
    requires Everywhere(T, st, u)
    ensures Good(T, RawLiteral(out, n, st.scope))
  {
    GuardSingle(T, st, u);
    hide Everywhere;
    if st.scope.Some? {
      LiteralTagGood(T, out, st.scope.value, n);
    } else {
      PlainGood(T, Literal(out, n));
    }
  }

  lemma LiteralGood(P: seq<Line>, T: iset<Token>, n: Data, out: Name, st: Gen, u: set<Var>)
    requires Ok(P, T, false) && Everywhere(T, st, u) && GenLiteral(n, out, st).lines <= P
    ensures GoodFrom(T, st, GenLiteral(n, out, st))
  {
    hide Ok, Everywhere, Good;
    var r := GenLiteral(n, out, st);
    if st.guard.Some? {
      var tmp := Name("%", st.num + 1);
      var raw, br := RawLiteral(tmp, n, st.scope), Branch(out, None, tmp, st.guard.value);
      RawGood(T, st, u, tmp, n);
      assert r.lines == (st.lines + [raw]) + [br];
      LastLine(st.lines + [raw], br, P);
      LastLine(st.lines, raw, P);
      GoodIsSole(T, raw);
      SoleSingle(P, T, raw, tmp);
      GuardSingle(T, st, u);
      PlainGood(T, br);
      GoodLines(T, st, r, [raw, br]);
    } else {
      RawGood(T, st, u, out, n);
      GoodLines(T, st, r, [RawLiteral(out, n, st.scope)]);
    }
  }

  lemma GoodIsSole(T: iset<Token>, l: Line)
    requires Good(T, l)
    ensures Sole(T, l)
  {
  }

  lemma ExprSingle(P: seq<Line>, T: iset<Token>, e: F.Expr, st: Gen)
    requires Ok(P, T, false) && F.UsedExpr(e) <= st.vars.Keys && GenExpr(e, st).0.lines <= P
    requires Everywhere(T, st, F.UsedExpr(e))
    ensures SingleValued(T, GenExpr(e, st).1)
  {
    hide Ok, GenExpr, LiteralsAt, VarsAt, L.Value, Everywhere;
    forall t
      ensures Bounded(T, GenExpr(e, st).1, t)
    {
      var env, live := Context(T, st, F.UsedExpr(e), t);
      ExprCorrect(P, T, false, e, st, t, env, live);
    }
    SingleFromAt(T, GenExpr(e, st).1);
  }

  lemma {:induction false} ExprGood(P: seq<Line>, T: iset<Token>, e: F.Expr, st: Gen)
    requires Ok(P, T, false) && F.UsedExpr(e) <= st.vars.Keys && GenExpr(e, st).0.lines <= P
    requires Everywhere(T, st, F.UsedExpr(e))
    ensures GoodFrom(T, st, GenExpr(e, st).0)
  {
    hide Ok, Good, Everywhere, GenLiteral;
    match e
    case Number(n) =>
      var st1 := st.(num := st.num + 1);
      SameContext(T, st, st1, {});
      LiteralGood(P, T, n, Name("%", st.num + 1), st1, {});
    case Variable(x) =>
    case Binary(op, l, r) =>
      var (st1, a) := GenExpr(l, st);
      var (st2, b) := GenExpr(r, st1);
      var line := Binary(Name("%", st2.num + 1), op, a, b);
      LastLine(st2.lines, line, P);
      Prefixes(st1.lines, st2.lines, P);
      FewerVars(T, st, F.UsedExpr(e), F.UsedExpr(l));
      FewerVars(T, st, F.UsedExpr(e), F.UsedExpr(r));
      SameContext(T, st, st1, F.UsedExpr(r));
      ExprGood(P, T, l, st);
      ExprGood(P, T, r, st1);
      ExprSingle(P, T, l, st);
      ExprSingle(P, T, r, st1);
      PlainGood(T, line);
      GoodLines(T, st2, GenExpr(e, st).0, [line]);
      GoodTrans(T, st, st1, st2);
      GoodTrans(T, st, st2, GenExpr(e, st).0);
  }

  lemma SameContext(T: iset<Token>, a: Gen, b: Gen, u: set<Var>)
    requires Everywhere(T, a, u) && b.vars == a.vars && b.scope == a.scope && b.guard == a.guard
    ensures Everywhere(T, b, u)
  {
    forall t
      ensures HasContext(T, b, u, t)
    {
      var env, live := Context(T, a, u, t);
      assert ContextAt(T, b.vars, b.scope, b.guard, u, t, env, live);
    }
  }

  // ---- Conditionals ----

  lemma SplitGood(P: seq<Line>, T: iset<Token>, q: seq<Var>, b: set<Var>, cond: Name, st: Gen)
    requires Ok(P, T, false) && Everywhere(T, st, b) && SingleValued(T, cond)
    requires F.Enumerates(q, b) && b <= st.vars.Keys && (set x | x in q) <= st.vars.Keys
    requires Split(q, cond, st).lines <= P
    ensures GoodFrom(T, st, Split(q, cond, st))
  {
    hide Ok, Good, Everywhere, SingleValued, SplitLines, Rename, TrueNames, FalseNames, GenLiteral;
    var base, r := st.num, Split(q, cond, st);
    var a := st.(lines := st.lines + SplitLines(q, st.vars, cond, base),
                 vars := Rename(st.vars, q, TrueNames(q, base), |q|), num := base + 2 * |q| + 1);
    var one := Name("%_1", a.num);
    var c := GenLiteral(1, one, a);
    var last := Branch(Name("%_true", c.num + 1), Some(Name("%_false", c.num + 2)), one, cond);
    LastLine(c.lines, last, P);
    SplitLinesGood(T, q, b, cond, st);
    GoodLines(T, st, a, SplitLines(q, st.vars, cond, base));
    GuardContext(T, st, a, b);
    LiteralGood(P, T, 1, one, a, {});
    LiteralSingle(P, T, 1, one, a);
    PlainGood(T, last);
    GoodLines(T, c, r, [last]);
    GoodTrans(T, st, a, c);
    GoodTrans(T, st, c, r);
  }

  // Where the variables do not matter, only scope and guard make the context.
  lemma GuardContext(T: iset<Token>, a: Gen, b: Gen, u: set<Var>)
    requires Everywhere(T, a, u) && b.scope == a.scope && b.guard == a.guard
    ensures Everywhere(T, b, {})
  {
    hide LiteralsAt;
    forall t
      ensures HasContext(T, b, {}, t)
    {
      var env, live := Context(T, a, u, t);
      assert ContextAt(T, b.vars, b.scope, b.guard, {}, t, env, live);
    }
  }

  lemma LiteralSingle(P: seq<Line>, T: iset<Token>, n: Data, out: Name, st: Gen)
    requires Ok(P, T, false) && Everywhere(T, st, {}) && GenLiteral(n, out, st).lines <= P
    ensures SingleValued(T, out)
  {
    hide Ok, LiteralsAt, GenLiteral, Everywhere;
    forall t
      ensures Bounded(T, out, t)
    {
      var env, live := Context(T, st, {}, t);
      LiteralCorrect(P, T, false, n, out, st, t, live);
    }
    SingleFromAt(T, out);
  }

  lemma SplitLinesGood(T: iset<Token>, q: seq<Var>, b: set<Var>, cond: Name, st: Gen)
    requires Everywhere(T, st, b) && SingleValued(T, cond)
    requires F.Enumerates(q, b) && b <= st.vars.Keys && (set x | x in q) <= st.vars.Keys
    ensures forall l :: l in SplitLines(q, st.vars, cond, st.num) ==> Good(T, l)
  {
    hide Good, Everywhere, SingleValued;
    var ls := SplitLines(q, st.vars, cond, st.num);
    forall l | l in ls
      ensures Good(T, l)
    {
      var k :| 0 <= k < |ls| && ls[k] == l;
      assert q[k] in (set x | x in q);
      VarSingle(T, st, b, q[k]);
      PlainGood(T, l);
    }
  }

  // The contexts of the two branches
  lemma BranchContexts(P: seq<Line>, T: iset<Token>, s: F.Stmt, st: Gen, u: set<Var>)
    requires s.If? && Ok(P, T, false) && F.Scoped(s, u) && u <= st.vars.Keys && F.Scoped(s, st.vars.Keys)
    requires GenStmt(s, st).lines <= P && Everywhere(T, st, u)
    ensures Everywhere(T, GenIf(s, st).thn, F.BranchVars(s))
    ensures Everywhere(T, GenIf(s, st).els, F.BranchVars(s))
  {
    hide Ok, HasContext, Everywhere, GenIf, GenStmt, F.Scoped, F.BranchVars;
    var p, b := GenIf(s, st), F.BranchVars(s);
    forall t
      ensures HasContext(T, p.thn, b, t)
      ensures HasContext(T, p.els, b, t)
    {
      BranchContextsAt(P, T, s, st, u, t);
    }
    BothEverywhere(T, p.thn, b);
    BothEverywhere(T, p.els, b);
  }

  lemma BranchContextsAt(P: seq<Line>, T: iset<Token>, s: F.Stmt, st: Gen, u: set<Var>, t: Tag)
    requires s.If? && Ok(P, T, false) && F.Scoped(s, u) && u <= st.vars.Keys && F.Scoped(s, st.vars.Keys)
    requires GenStmt(s, st).lines <= P && Everywhere(T, st, u)
    ensures HasContext(T, GenIf(s, st).thn, F.BranchVars(s), t) && HasContext(T, GenIf(s, st).els, F.BranchVars(s), t)
  {
    hide Ok, At, VarsAt, LiteralsAt, Everywhere, GenExpr, GenIf, GenStmt, Split, Rename, FalseNames, L.Value, BranchEnv;
    IfShape(s, st);
    IfPrefixes(P, s, st);
    var p, b := GenIf(s, st), F.BranchVars(s);
    var env, live := BranchContext(P, T, s, st, u, t);
    var v := L.Value(s.cond, env, live);
    SplitCorrect(P, T, false, s.order, b, p.cond, p.test, t, env, live, v);
    assert ContextAt(T, p.thn.vars, p.thn.scope, p.thn.guard, b, t, BranchEnv(env, b, Takes(v, true)), live && Takes(v, true));
    assert ContextAt(T, p.els.vars, p.els.scope, p.els.guard, b, t, BranchEnv(env, b, Takes(v, false)), live && Takes(v, false));
  }

  lemma BothEverywhere(T: iset<Token>, st: Gen, u: set<Var>)
    requires forall t :: HasContext(T, st, u, t)
    ensures Everywhere(T, st, u)
  {
  }

  lemma BranchContext(P: seq<Line>, T: iset<Token>, s: F.Stmt, st: Gen, u: set<Var>, t: Tag)
    returns (env: F.Env, live: bool)
    requires s.If? && Ok(P, T, false) && F.Scoped(s, u) && u <= st.vars.Keys && F.Scoped(s, st.vars.Keys)
    requires GenStmt(s, st).lines <= P && Everywhere(T, st, u)
    ensures VarsAt(T, GenIf(s, st).test.vars, F.BranchVars(s), t, env, false)
    ensures LiteralsAt(T, GenIf(s, st).test.scope, GenIf(s, st).test.guard, t, live, false)
    ensures At(T, GenIf(s, st).cond, t, NumOf(L.Value(s.cond, env, live)), false)
  {
    hide Ok, At, LiteralsAt, Everywhere, GenIf, GenStmt, L.Value;
    IfShape(s, st);
    IfPrefixes(P, s, st);
    env, live := Context(T, st, u, t);
    ExprCorrect(P, T, false, s.cond, st, t, env, live);
  }

  // After the branches no variable has a token from both of them.
  lemma MergeInputs(P: seq<Line>, T: iset<Token>, s: F.Stmt, st: Gen, u: set<Var>, x: Var)
    requires s.If? && Ok(P, T, false) && F.Scoped(s, u) && u <= st.vars.Keys && F.Scoped(s, st.vars.Keys)
    requires GenStmt(s, st).lines <= P && Everywhere(T, st, u) && x in F.BranchVars(s)
    ensures x in GenIf(s, st).thnEnd.vars && x in GenIf(s, st).elsEnd.vars
    ensures var a, b := GenIf(s, st).thnEnd.vars[x], GenIf(s, st).elsEnd.vars[x];
      SingleValued(T, a) && SingleValued(T, b) && Exclusive(T, a, b)
  {
    hide Ok, At, LiteralsAt, VarsAt, Everywhere, GenIf, GenStmt, L.Run;
    IfShape(s, st);
    var a, b := GenIf(s, st).thnEnd.vars[x], GenIf(s, st).elsEnd.vars[x];
    forall t
      ensures AtMostOne(T, a, b, t)
    {
      MergeInputsAt(P, T, s, st, u, x, t);
    }
    AtMostOneEverywhere(T, a, b);
  }

  // Under tag t at most one of two names has a token, and at most one token.
  ghost predicate AtMostOne(T: iset<Token>, a: Name, b: Name, t: Tag) {
    exists v, w :: At(T, a, t, v, false) && At(T, b, t, w, false) && (v.None? || w.None?)
  }

  lemma AtMostOneEverywhere(T: iset<Token>, a: Name, b: Name)
    requires forall t :: AtMostOne(T, a, b, t)
    ensures SingleValued(T, a) && SingleValued(T, b) && Exclusive(T, a, b)
  {
    forall t
      ensures Bounded(T, a, t) && Bounded(T, b, t)
    {
      assert AtMostOne(T, a, b, t);
    }
    SingleFromAt(T, a);
    SingleFromAt(T, b);
    forall t, v, w
      ensures !(Token(a, t, v) in T && Token(b, t, w) in T)
    {
      assert AtMostOne(T, a, b, t);
    }
  }

  lemma OneBranchRuns(s: F.Stmt, env: F.Env, live: bool, x: Var)
    requires s.If? && x in F.BranchVars(s)
    ensures NumIn(BranchRun(s, env, live, true), x).None? || NumIn(BranchRun(s, env, live, false), x).None?
  {
    hide L.Value, L.Run;
    IfRun(s, env, live, x);
  }

  // Under tag t the two branches end with environments that have no variable in common.
  lemma BranchEnds(P: seq<Line>, T: iset<Token>, s: F.Stmt, st: Gen, u: set<Var>, x: Var, t: Tag)
    returns (a: F.Env, b: F.Env)
    requires s.If? && Ok(P, T, false) && F.Scoped(s, u) && u <= st.vars.Keys && F.Scoped(s, st.vars.Keys)
    requires GenStmt(s, st).lines <= P && Everywhere(T, st, u) && x in F.BranchVars(s)
    ensures VarsAt(T, GenIf(s, st).thnEnd.vars, F.BranchVars(s), t, a, false)
    ensures VarsAt(T, GenIf(s, st).elsEnd.vars, F.BranchVars(s), t, b, false)
    ensures NumIn(a, x).None? || NumIn(b, x).None?
  {
    hide Ok, VarsAt, LiteralsAt, Everywhere, GenIf, GenStmt, BranchRun, NumIn;
    var env, live := Context(T, st, u, t);
    a, b := BranchRun(s, env, live, true), BranchRun(s, env, live, false);
    OneBranchRuns(s, env, live, x);
    TestVars(T, st.vars, u, s, t, env);
    BranchesCorrect(P, T, false, s, st, t, env, live);
  }

  lemma TestVars(T: iset<Token>, vars: map<Var, Name>, u: set<Var>, s: F.Stmt, t: Tag, env: F.Env)
    requires s.If? && F.Scoped(s, u) && VarsAt(T, vars, u, t, env, false)
    ensures VarsAt(T, vars, F.BranchVars(s) + F.UsedExpr(s.cond), t, env, false)
  {
    hide At;
  }

  lemma MergeInputsAt(P: seq<Line>, T: iset<Token>, s: F.Stmt, st: Gen, u: set<Var>, x: Var, t: Tag)
    requires s.If? && Ok(P, T, false) && F.Scoped(s, u) && u <= st.vars.Keys && F.Scoped(s, st.vars.Keys)
    requires GenStmt(s, st).lines <= P && Everywhere(T, st, u) && x in F.BranchVars(s)
    ensures x in GenIf(s, st).thnEnd.vars && x in GenIf(s, st).elsEnd.vars
    ensures AtMostOne(T, GenIf(s, st).thnEnd.vars[x], GenIf(s, st).elsEnd.vars[x], t)
  {
    hide Ok, At, VarsAt, Everywhere, GenIf, GenStmt, NumIn, F.Scoped, F.BranchVars;
    var a, b := BranchEnds(P, T, s, st, u, x, t);
    VarAt(T, GenIf(s, st).thnEnd.vars, F.BranchVars(s), t, a, x);
    VarAt(T, GenIf(s, st).elsEnd.vars, F.BranchVars(s), t, b, x);
  }

  lemma VarAt(T: iset<Token>, vars: map<Var, Name>, u: set<Var>, t: Tag, env: F.Env, x: Var)
    requires VarsAt(T, vars, u, t, env, false) && x in u
    ensures x in vars && At(T, vars[x], t, NumIn(env, x), false)
  {
  }

  lemma {:induction false} MergesGood(T: iset<Token>, q: seq<Var>, tv: map<Var, Name>, fv: map<Var, Name>, st: Gen, k: nat)
    requires k <= |q| && forall x :: x in q ==> x in tv && x in fv && x in st.vars
    requires forall x :: x in q ==> SingleValued(T, tv[x]) && SingleValued(T, fv[x]) && Exclusive(T, tv[x], fv[x])
    ensures GoodFrom(T, st, MergeVars(q, tv, fv, st, k))
    decreases k
  {
    hide Good, GoodFrom, SingleValued, Exclusive, MergeVars;
    MergeMore(q, tv, fv, st, k);
    if k == 0 {
      GoodLines(T, st, st, []);
    } else {
      var p, r, x := MergeVars(q, tv, fv, st, k - 1), MergeVars(q, tv, fv, st, k), q[k - 1];
      MergesGood(T, q, tv, fv, st, k - 1);
      if tv[x] != fv[x] {
        PhiGood(T, Merge(Name("_" + x + "_phi%", p.num + 1), tv[x], fv[x]), p, r);
        GoodTrans(T, st, p, r);
      }
    }
  }

  lemma PhiGood(T: iset<Token>, l: Line, p: Gen, r: Gen)
    requires l.Merge? && l.a != l.b && SingleValued(T, l.a) && SingleValued(T, l.b) && Exclusive(T, l.a, l.b)
    requires r.lines == p.lines + [l]
    ensures GoodFrom(T, p, r)
  {
    hide Good, SingleValued, Exclusive;
    MergeGood(T, l.out, l.a, l.b);
    GoodLines(T, p, r, [l]);
  }

  // ---- Statements ----

  lemma StmtEverywhere(P: seq<Line>, T: iset<Token>, s: F.Stmt, st: Gen, u: set<Var>)
    requires Ok(P, T, false) && F.Scoped(s, u) && u <= st.vars.Keys && F.Scoped(s, st.vars.Keys)
    requires GenStmt(s, st).lines <= P && Everywhere(T, st, u)
    ensures Everywhere(T, GenStmt(s, st), F.After(s, u))
  {
    hide Ok, At, VarsAt, LiteralsAt, Everywhere, GenStmt, L.Run;
    var r := GenStmt(s, st);
    forall t
      ensures HasContext(T, r, F.After(s, u), t)
    {
      var env, live := Context(T, st, u, t);
      StmtCorrect(P, T, false, s, st, u, t, env, live);
      assert ContextAt(T, r.vars, r.scope, r.guard, F.After(s, u), t, L.Run(s, env, live), live);
    }
    BothEverywhere(T, r, F.After(s, u));
  }

  lemma {:induction false} StmtGood(P: seq<Line>, T: iset<Token>, s: F.Stmt, st: Gen, u: set<Var>)
    requires Ok(P, T, false) && F.Scoped(s, u) && u <= st.vars.Keys && F.Scoped(s, st.vars.Keys)
    requires GenStmt(s, st).lines <= P && Everywhere(T, st, u)
    ensures GoodFrom(T, st, GenStmt(s, st))
    decreases s, 1
  {
    hide Ok, Good, Everywhere, GenExpr, F.Enumerates, GenIf, GenWhile;
    var r := GenStmt(s, st);
    match s
    case Skip =>
    case Seq(a, b) =>
      var mid := GenStmt(a, st);
      GenGrows(b, mid);
      Prefixes(mid.lines, r.lines, P);
      F.ScopedMore(a, u, st.vars.Keys);
      StmtGood(P, T, a, st, u);
      StmtEverywhere(P, T, a, st, u);
      StmtGood(P, T, b, mid, F.After(a, u));
      GoodTrans(T, st, mid, r);
    case Assign(x, e) =>
      var (st1, v) := GenExpr(e, st);
      var line := Copy(Name(x + "%", st1.num + 1), v);
      LastLine(st1.lines, line, P);
      FewerVars(T, st, u, F.UsedExpr(e));
      ExprGood(P, T, e, st);
      ExprSingle(P, T, e, st);
      PlainGood(T, line);
      GoodLines(T, st1, r, [line]);
      GoodTrans(T, st, st1, r);
    case If(_, _, _, _, _) => IfGood(P, T, s, st, u);
    case While(_, _, _) => WhileGood(P, T, s, st, u);
  }

  lemma {:induction false} IfGood(P: seq<Line>, T: iset<Token>, s: F.Stmt, st: Gen, u: set<Var>)
    requires s.If? && Ok(P, T, false) && F.Scoped(s, u) && u <= st.vars.Keys && F.Scoped(s, st.vars.Keys)
    requires GenStmt(s, st).lines <= P && Everywhere(T, st, u)
    ensures GoodFrom(T, st, GenStmt(s, st))
    decreases s, 0
  {
    hide Ok, Good, Everywhere, SingleValued, Exclusive, GenExpr, GenIf, GenStmt, Split, MergeVars, Rename, FalseNames;
    var p, r, b := GenIf(s, st), GenStmt(s, st), F.BranchVars(s);
    IfShape(s, st);
    IfPrefixes(P, s, st);
    IfGrows(s, st);
    FewerVars(T, st, u, F.UsedExpr(s.cond));
    FewerVars(T, st, u, b);
    ExprGood(P, T, s.cond, st);
    ExprSingle(P, T, s.cond, st);
    SameContext(T, st, p.test, b);
    SplitGood(P, T, s.order, b, p.cond, p.test);
    BranchContexts(P, T, s, st, u);
    StmtGood(P, T, s.thn, p.thn, b);
    StmtGood(P, T, s.els, p.els, b);
    var last := p.elsEnd.(guard := st.guard);
    forall x | x in s.merge
      ensures x in p.thnEnd.vars && x in p.elsEnd.vars
      ensures SingleValued(T, p.thnEnd.vars[x]) && SingleValued(T, p.elsEnd.vars[x])
      ensures Exclusive(T, p.thnEnd.vars[x], p.elsEnd.vars[x])
    {
      InEnumerated(s.merge, b, x);
      MergeInputs(P, T, s, st, u, x);
    }
    MergesGood(T, s.merge, p.thnEnd.vars, p.elsEnd.vars, last, |s.merge|);
    GoodTrans(T, st, p.test, p.thn);
    GoodTrans(T, st, p.thn, p.thnEnd);
    GoodTrans(T, st, p.thnEnd, p.elsEnd);
    GoodTrans(T, st, p.elsEnd, r);
  }

  lemma InEnumerated(q: seq<Var>, b: set<Var>, x: Var)
    requires F.Enumerates(q, b) && x in q
    ensures x in b
  {
    assert x in (set y | y in q);
  }

  // ---- Loops ----

  // Under every area the loop is entered with some environment.
  lemma LoopArea(P: seq<Line>, T: iset<Token>, s: F.Stmt, st: Gen, u: set<Var>, a: Area) returns (env: F.Env)
    requires s.While? && Ok(P, T, false) && F.Scoped(s, u) && u <= st.vars.Keys && F.Scoped(s, st.vars.Keys)
    requires GenStmt(s, st).lines <= P && Everywhere(T, st, u)
    ensures |s.order| > 0 && LoopOf(s, st).Coded(P) && Enters(T, LoopOf(s, st), a, env, false)
  {
    hide Ok, At, LiteralsAt, Everywhere, GenWhile, GenStmt, Enters;
    var c := LoopOf(s, st);
    LoopFits(s, st);
    LoopCoded(P, s, st);
    if a.Activation? && a.site == NewTagName(c.n) {
      var e, live := Context(T, st, u, a.parent);
      env := e;
      EntersInside(P, T, false, c, a.parent, env);
    } else {
      env := map[];
      EntersNowhere(P, T, c, a);
    }
  }

  lemma LoopSingles(P: seq<Line>, T: iset<Token>, s: F.Stmt, st: Gen, u: set<Var>, k: nat)
    requires s.While? && Ok(P, T, false) && F.Scoped(s, u) && u <= st.vars.Keys && F.Scoped(s, st.vars.Keys)
    requires GenStmt(s, st).lines <= P && Everywhere(T, st, u) && k < |s.order|
    ensures LoopOf(s, st).Coded(P)
    ensures SingleValued(T, LoopOf(s, st).StartOf(k)) && SingleValued(T, LoopOf(s, st).cond)
    ensures s.order[k] in st.vars && SingleValued(T, st.vars[s.order[k]])
    ensures SingleValued(T, LoopOf(s, st).ends[s.order[k]])
  {
    hide Ok, At, Everywhere, GenWhile, GenStmt, Enters, L.Turn, L.Ends, L.Test;
    var c := LoopOf(s, st);
    LoopFits(s, st);
    LoopCoded(P, s, st);
    forall t
      ensures Bounded(T, c.StartOf(k), t) && Bounded(T, c.cond, t) && Bounded(T, c.ends[s.order[k]], t)
    {
      var env := LoopArea(P, T, s, st, u, t.area);
      assert t == Tag(t.area, t.iter);
      TurnCorrect(P, T, false, s, st, t.area, env, t.iter);
      AtTest(P, T, false, s, st, t, L.Turn(s, env, t.iter));
      BodyTurn(P, T, false, s, st, t.area, env, t.iter);
    }
    SingleFromAt(T, c.StartOf(k));
    SingleFromAt(T, c.cond);
    SingleFromAt(T, c.ends[s.order[k]]);
    VarSingle(T, st, u, s.order[k]);
  }

  // A variable leaves an activation in one turn only.
  lemma OffOneIter(P: seq<Line>, T: iset<Token>, s: F.Stmt, st: Gen, u: set<Var>, k: nat)
    requires s.While? && Ok(P, T, false) && F.Scoped(s, u) && u <= st.vars.Keys && F.Scoped(s, st.vars.Keys)
    requires GenStmt(s, st).lines <= P && Everywhere(T, st, u) && k < |s.order|
    ensures OneIter(T, LoopOf(s, st).OffOf(k))
  {
    hide Ok, Everywhere, GenWhile, GenStmt, Enters, L.Turn, L.Ends;
    var c := LoopOf(s, st);
    forall a, i: nat, j: nat, v, w | Token(c.OffOf(k), Tag(a, i), v) in T && Token(c.OffOf(k), Tag(a, j), w) in T
      ensures i == j
    {
      var env := LoopArea(P, T, s, st, u, a);
      OffCorrect(P, T, false, s, st, a, env, k, i);
      OffCorrect(P, T, false, s, st, a, env, k, j);
      L.EndsOnce(s, env, i, j);
    }
  }

  // At the start of a turn a variable comes from outside or from the turn before, never both.
  // Under one tag either the value that enters arrives, or the one that comes round.
  lemma EitherArrives(P: seq<Line>, T: iset<Token>, c: Loop, k: nat, t: Tag, env: F.Env, w: Option<Word>)
    requires Ok(P, T, false) && c.Coded(P) && k < |c.q| && Enters(T, c, t.area, env, false)
    requires At(T, c.ends[c.q[k]], t, w, false) && (t.iter == 0 ==> w.None?)
    ensures AtMostOne(T, c.TaggedOf(k), c.LastOf(k), t)
  {
    hide Ok, At, NumIn;
    assert c.Carries(P, k);
    CopyAt(P, T, false, c.LastOf(k), c.ends[c.q[k]], t, w);
    var v := if t.iter == 0 && c.q[0] in env then NumIn(env, c.q[k]) else None;
    assert t == Tag(t.area, t.iter);
    assert At(T, c.TaggedOf(k), t, v, false);
  }

  lemma StartInputsAt(P: seq<Line>, T: iset<Token>, s: F.Stmt, st: Gen, u: set<Var>, k: nat, t: Tag)
    requires s.While? && Ok(P, T, false) && F.Scoped(s, u) && u <= st.vars.Keys && F.Scoped(s, st.vars.Keys)
    requires GenStmt(s, st).lines <= P && Everywhere(T, st, u) && k < |s.order|
    ensures AtMostOne(T, LoopOf(s, st).TaggedOf(k), LoopOf(s, st).LastOf(k), t)
  {
    hide Ok, At, AtMostOne, Enters, Everywhere, GenWhile, GenStmt, L.Turn, F.Scoped, NumIn;
    var env := LoopArea(P, T, s, st, u, t.area);
    BodyTurn(P, T, false, s, st, t.area, env, t.iter);
    assert t == Tag(t.area, t.iter);
    var w := if t.iter == 0 then None else NumIn(L.Turn(s, env, t.iter), s.order[k]);
    EitherArrives(P, T, LoopOf(s, st), k, t, env, w);
  }

  lemma StartInputs(P: seq<Line>, T: iset<Token>, s: F.Stmt, st: Gen, u: set<Var>, k: nat)
    requires s.While? && Ok(P, T, false) && F.Scoped(s, u) && u <= st.vars.Keys && F.Scoped(s, st.vars.Keys)
    requires GenStmt(s, st).lines <= P && Everywhere(T, st, u) && k < |s.order|
    ensures var a, b := LoopOf(s, st).TaggedOf(k), LoopOf(s, st).LastOf(k);
      SingleValued(T, a) && SingleValued(T, b) && Exclusive(T, a, b)
  {
    hide Ok, AtMostOne, Everywhere, GenStmt, GenWhile, SingleValued, Exclusive, F.Scoped;
    var a, b := LoopOf(s, st).TaggedOf(k), LoopOf(s, st).LastOf(k);
    forall t ensures AtMostOne(T, a, b, t) { StartInputsAt(P, T, s, st, u, k, t); }
    AtMostOneEverywhere(T, a, b);
  }

  lemma DrawsGood(P: seq<Line>, T: iset<Token>, c: Loop)
    requires Ok(P, T, false) && c.Coded(P) && SingleValued(T, c.vars[c.q[0]])
    ensures Good(T, NewTag(NewTagName(c.n), OldTagName(c.n), c.vars[c.q[0]]))
    ensures Good(T, CopyTag(OldUnderNew(c.n), NewTagName(c.n), OldTagName(c.n)))
    ensures SingleValued(T, NewTagName(c.n)) && OneSender(T, NewTagName(c.n))
    ensures SingleValued(T, OldUnderNew(c.n)) && OneSender(T, OldUnderNew(c.n))
  {
    hide Ok, SingleValued, OneSender, Good;
    var nt, ot, otn := NewTagName(c.n), OldTagName(c.n), OldUnderNew(c.n);
    var l, m := NewTag(nt, ot, c.vars[c.q[0]]), CopyTag(otn, nt, ot);
    PlainGood(T, l);
    GoodIsSole(T, l);
    SoleSingle(P, T, l, nt);
    SoleSingle(P, T, l, ot);
    NewTagSender(P, T, c);
    CopyTagGood(T, otn, nt, ot);
    GoodIsSole(T, m);
    SoleSingle(P, T, m, otn);
    OldTagSender(P, T, c);
  }

  lemma NewTagSender(P: seq<Line>, T: iset<Token>, c: Loop)
    requires Ok(P, T, false) && c.Coded(P)
    ensures OneSender(T, NewTagName(c.n))
  {
    hide Ok;
    var nt := NewTagName(c.n);
    forall t, r, s | Token(nt, r, TagWord(t)) in T && Token(nt, s, TagWord(t)) in T
      ensures r == s
    {
      NewTagForm(P, T, nt, OldTagName(c.n), c.vars[c.q[0]], r, TagWord(t));
      NewTagForm(P, T, nt, OldTagName(c.n), c.vars[c.q[0]], s, TagWord(t));
    }
  }

  lemma OldTagSender(P: seq<Line>, T: iset<Token>, c: Loop)
    requires Ok(P, T, false) && c.Coded(P)
    ensures OneSender(T, OldUnderNew(c.n))
  {
    hide Ok;
    var otn := OldUnderNew(c.n);
    forall t, r, s | Token(otn, r, TagWord(t)) in T && Token(otn, s, TagWord(t)) in T
      ensures r == s
    {
      OldUnderNewForm(P, T, c, r, t);
      OldUnderNewForm(P, T, c, s, t);
    }
  }

  lemma OldUnderNewForm(P: seq<Line>, T: iset<Token>, c: Loop, s: Tag, t: Tag)
    requires Ok(P, T, false) && c.Coded(P) && Token(OldUnderNew(c.n), s, TagWord(t)) in T
    ensures s == Tag(Inside(c, t), 0)
  {
    var otn, nt, ot := OldUnderNew(c.n), NewTagName(c.n), OldTagName(c.n);
    var ins := From(P, T, CopyTag(otn, nt, ot), Token(otn, s, TagWord(t)));
    NewTagForm(P, T, nt, ot, c.vars[c.q[0]], ins.x.tag, ins.x.word);
    OldTagForm(P, T, nt, ot, c.vars[c.q[0]], ins.y.tag, ins.y.word);
  }

  // All lines of the k-th loop variable are good.
  ghost predicate VariableGood(T: iset<Token>, c: Loop, k: nat)
    requires c.Fits() && k < |c.q|
  {
    && Good(T, CopyTag(c.TaggedOf(k), NewTagName(c.n), c.vars[c.q[k]]))
    && Good(T, Merge(c.StartOf(k), c.TaggedOf(k), c.LastOf(k)))
    && Good(T, Branch(c.OnOf(k), Some(c.OffOf(k)), c.StartOf(k), c.cond))
    && Good(T, NextIter(c.AgainOf(k), c.OnOf(k)))
    && Good(T, ResetIter(c.ResetOf(k), c.OffOf(k)))
    && Good(T, CopyTag(c.EndOf(k), OldUnderNew(c.n), c.ResetOf(k)))
    && Good(T, Copy(c.LastOf(k), c.ends[c.q[k]]))
    && SingleValued(T, c.AgainOf(k))
  }

  lemma VariableIsGood(P: seq<Line>, T: iset<Token>, s: F.Stmt, st: Gen, u: set<Var>, k: nat)
    requires s.While? && Ok(P, T, false) && F.Scoped(s, u) && u <= st.vars.Keys && F.Scoped(s, st.vars.Keys)
    requires GenStmt(s, st).lines <= P && Everywhere(T, st, u) && k < |s.order|
    ensures LoopOf(s, st).Fits() && VariableGood(T, LoopOf(s, st), k)
  {
    hide Ok, Everywhere, GenWhile, GenStmt, SingleValued, OneSender, OneIter, Exclusive, Good;
    var c := LoopOf(s, st);
    LoopSingles(P, T, s, st, u, 0);
    LoopSingles(P, T, s, st, u, k);
    OffOneIter(P, T, s, st, u, k);
    StartInputs(P, T, s, st, u, k);
    DrawsGood(P, T, c);
    assert c.Carries(P, k);
    CopyTagGood(T, c.TaggedOf(k), NewTagName(c.n), c.vars[c.q[k]]);
    MergeGood(T, c.StartOf(k), c.TaggedOf(k), c.LastOf(k));
    PlainGood(T, Copy(c.LastOf(k), c.ends[c.q[k]]));
    WayOutGood(P, T, c, k);
  }

  lemma WayOutGood(P: seq<Line>, T: iset<Token>, c: Loop, k: nat)
    requires Ok(P, T, false) && c.Coded(P) && k < |c.q|
    requires SingleValued(T, c.StartOf(k)) && SingleValued(T, c.cond) && OneIter(T, c.OffOf(k))
    requires SingleValued(T, OldUnderNew(c.n)) && OneSender(T, OldUnderNew(c.n))
    ensures Good(T, Branch(c.OnOf(k), Some(c.OffOf(k)), c.StartOf(k), c.cond))
    ensures Good(T, NextIter(c.AgainOf(k), c.OnOf(k)))
    ensures Good(T, ResetIter(c.ResetOf(k), c.OffOf(k)))
    ensures Good(T, CopyTag(c.EndOf(k), OldUnderNew(c.n), c.ResetOf(k)))
    ensures SingleValued(T, c.AgainOf(k))
  {
    hide Ok, SingleValued, OneSender, OneIter, Good;
    assert c.Carries(P, k);
    var br, nx := Branch(c.OnOf(k), Some(c.OffOf(k)), c.StartOf(k), c.cond), NextIter(c.AgainOf(k), c.OnOf(k));
    var rs := ResetIter(c.ResetOf(k), c.OffOf(k));
    PlainGood(T, br);
    GoodIsSole(T, br);
    SoleSingle(P, T, br, c.OnOf(k));
    SoleSingle(P, T, br, c.OffOf(k));
    PlainGood(T, nx);
    GoodIsSole(T, nx);
    SoleSingle(P, T, nx, c.AgainOf(k));
    ResetGood(T, c.ResetOf(k), c.OffOf(k));
    GoodIsSole(T, rs);
    SoleSingle(P, T, rs, c.ResetOf(k));
    CopyTagGood(T, c.EndOf(k), OldUnderNew(c.n), c.ResetOf(k));
  }

  lemma {:induction false} EnterAllGood(T: iset<Token>, c: Loop, k: nat)
    requires c.Fits() && k <= |c.q| && (forall x :: x in c.q ==> x in c.vars)
    requires forall j: nat :: j < |c.q| ==> VariableGood(T, c, j)
    ensures forall l :: l in EnterLines(c.q, c.vars, c.n, k) ==> Good(T, l)
    decreases k
  {
    hide Good;
    if k > 0 {
      EnterAllGood(T, c, k - 1);
      assert VariableGood(T, c, k - 1);
    }
  }

  lemma {:induction false} TestAllGood(T: iset<Token>, c: Loop, k: nat)
    requires c.Fits() && k <= |c.q|
    requires forall j: nat :: j < |c.q| ==> VariableGood(T, c, j)
    ensures forall l :: l in TestLines(c.q, c.n, c.base, c.cond, k) ==> Good(T, l)
    decreases k
  {
    hide Good;
    if k > 0 {
      TestAllGood(T, c, k - 1);
      assert VariableGood(T, c, k - 1);
    }
  }

  lemma {:induction false} BackAllGood(T: iset<Token>, c: Loop, k: nat)
    requires c.Fits() && k <= |c.q| && (forall x :: x in c.q ==> x in c.ends)
    requires forall j: nat :: j < |c.q| ==> VariableGood(T, c, j)
    ensures forall l :: l in BackLines(c.q, c.ends, c.n, k) ==> Good(T, l)
    decreases k
  {
    hide Good;
    if k > 0 {
      BackAllGood(T, c, k - 1);
      assert VariableGood(T, c, k - 1);
    }
  }

  lemma EnterGood(P: seq<Line>, T: iset<Token>, c: Loop, st: Gen)
    requires Ok(P, T, false) && c.Coded(P) && c.vars == st.vars && c.n == st.num && (set x | x in c.q) <= st.vars.Keys
    requires forall x :: x in c.q ==> x in c.vars
    requires SingleValued(T, c.vars[c.q[0]]) && SingleValued(T, c.StartOf(0))
    requires forall j: nat :: j < |c.q| ==> VariableGood(T, c, j)
    ensures GoodFrom(T, st, Enter(c.q, st))
  {
    hide Ok, Good, SingleValued, OneSender, Rename, LoopNames, EnterLines;
    var r := Enter(c.q, st);
    DrawsGood(P, T, c);
    EnterAllGood(T, c, |c.q|);
    PlainGood(T, ReadTag(r.scope.value, c.StartOf(0)));
    GoodLines(T, st, r, TagLines(c.vars[c.q[0]], c.n) + EnterLines(c.q, c.vars, c.n, |c.q|)
              + [ReadTag(r.scope.value, Start(c.q[0], c.n + 3, 0))]);
  }

  lemma TestGood(T: iset<Token>, c: Loop, st: Gen)
    requires c.Fits() && c.base == st.num + 1 && (set x | x in c.q) <= st.vars.Keys
    requires forall j: nat :: j < |c.q| ==> VariableGood(T, c, j)
    ensures GoodFrom(T, st, Codegen.Test(c.q, c.n, c.cond, st))
  {
    hide Good, SingleValued, Rename, LoopNames, TestLines;
    var r := Codegen.Test(c.q, c.n, c.cond, st);
    assert VariableGood(T, c, 0);
    TestAllGood(T, c, |c.q|);
    PlainGood(T, ReadTag(r.scope.value, c.AgainOf(0)));
    GoodLines(T, st, r, [ReadTag(r.scope.value, Again(c.q[0], c.n + 3, 0))] + TestLines(c.q, c.n, c.base, c.cond, |c.q|));
  }

  lemma LeaveGood(T: iset<Token>, c: Loop, st: Gen, outer: Gen)
    requires c.Fits() && c.ends == st.vars && (set x | x in c.q) <= st.vars.Keys && (forall x :: x in c.q ==> x in st.vars)
    requires forall j: nat :: j < |c.q| ==> VariableGood(T, c, j)
    ensures GoodFrom(T, st, Leave(c.q, c.n, st, outer))
  {
    hide Good, Rename, LoopNames, BackLines;
    BackAllGood(T, c, |c.q|);
    GoodLines(T, st, Leave(c.q, c.n, st, outer), BackLines(c.q, st.vars, c.n, |c.q|));
  }

  lemma TestHasContext(P: seq<Line>, T: iset<Token>, s: F.Stmt, st: Gen, u: set<Var>, t: Tag)
    requires s.While? && Ok(P, T, false) && F.Scoped(s, u) && u <= st.vars.Keys && F.Scoped(s, st.vars.Keys)
    requires GenStmt(s, st).lines <= P && Everywhere(T, st, u)
    ensures HasContext(T, GenWhile(s, st).enter, F.Used(s), t)
  {
    hide Ok, At, VarsAt, LiteralsAt, Everywhere, GenWhile, GenStmt, Enters, L.Turn;
    LoopFits(s, st);
    var p := GenWhile(s, st);
    var env := LoopArea(P, T, s, st, u, t.area);
    assert t == Tag(t.area, t.iter);
    TurnCorrect(P, T, false, s, st, t.area, env, t.iter);
    var turn := L.Turn(s, env, t.iter);
    TestContext(P, T, false, s, st, t, turn);
    assert ContextAt(T, p.enter.vars, p.enter.scope, p.enter.guard, F.Used(s), t, turn, L.TurnLive(s, turn));
  }

  lemma BodyHasContext(P: seq<Line>, T: iset<Token>, s: F.Stmt, st: Gen, u: set<Var>, t: Tag)
    requires s.While? && Ok(P, T, false) && F.Scoped(s, u) && u <= st.vars.Keys && F.Scoped(s, st.vars.Keys)
    requires GenStmt(s, st).lines <= P && Everywhere(T, st, u)
    ensures HasContext(T, GenWhile(s, st).body, F.Used(s), t)
  {
    hide Ok, At, VarsAt, LiteralsAt, Everywhere, GenWhile, GenStmt, Enters, BodyEnv;
    LoopFits(s, st);
    var p := GenWhile(s, st);
    var env := LoopArea(P, T, s, st, u, t.area);
    assert t == Tag(t.area, t.iter);
    var b := BodyEnv(s, env, t.iter);
    AgainTurn(P, T, false, s, st, t.area, env, t.iter);
    AtBody(P, T, false, s, st, t, b);
    assert ContextAt(T, p.body.vars, p.body.scope, p.body.guard, F.Used(s), t, b, s.order[0] in b);
  }

  lemma TestEverywhere(P: seq<Line>, T: iset<Token>, s: F.Stmt, st: Gen, u: set<Var>)
    requires s.While? && Ok(P, T, false) && F.Scoped(s, u) && u <= st.vars.Keys && F.Scoped(s, st.vars.Keys)
    requires GenStmt(s, st).lines <= P && Everywhere(T, st, u)
    ensures Everywhere(T, GenWhile(s, st).enter, F.Used(s))
    ensures Everywhere(T, GenWhile(s, st).body, F.Used(s))
  {
    hide Ok, HasContext, GenWhile, GenStmt, F.Scoped;
    forall t
      ensures HasContext(T, GenWhile(s, st).enter, F.Used(s), t)
      ensures HasContext(T, GenWhile(s, st).body, F.Used(s), t)
    {
      TestHasContext(P, T, s, st, u, t);
      BodyHasContext(P, T, s, st, u, t);
    }
  }

  lemma {:induction false} WhileGood(P: seq<Line>, T: iset<Token>, s: F.Stmt, st: Gen, u: set<Var>)
    requires s.While? && Ok(P, T, false) && F.Scoped(s, u) && u <= st.vars.Keys && F.Scoped(s, st.vars.Keys)
    requires GenStmt(s, st).lines <= P && Everywhere(T, st, u)
    ensures GoodFrom(T, st, GenStmt(s, st))
    decreases s, 0
  {
    hide Ok, Good, Everywhere, SingleValued, GenExpr, GenWhile, GenStmt, Enter, Codegen.Test, Leave, F.Scoped, F.Used, F.UsedExpr;
    var p, c, r := GenWhile(s, st), LoopOf(s, st), GenStmt(s, st);
    LoopFits(s, st);
    WhileShape(s, st);
    WhilePrefixes(P, s, st);
    EnumeratesUsed(s, st);
    LoopSingles(P, T, s, st, u, 0);
    forall k: nat | k < |s.order|
      ensures VariableGood(T, c, k)
    {
      VariableIsGood(P, T, s, st, u, k);
    }
    TestEverywhere(P, T, s, st, u);
    EnterGood(P, T, c, st);
    FewerVars(T, p.enter, F.Used(s), F.UsedExpr(s.cond));
    ExprGood(P, T, s.cond, p.enter);
    TestGood(T, c, p.test);
    StmtGood(P, T, s.body, p.body, F.Used(s));
    LeaveGood(T, c, p.bodyEnd, st);
    GoodTrans(T, st, p.enter, p.test);
    GoodTrans(T, st, p.test, p.body);
    GoodTrans(T, st, p.body, p.bodyEnd);
    GoodTrans(T, st, p.bodyEnd, r);
  }
}
