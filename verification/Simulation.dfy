// The tokens a compiled statement leaves under one tag are the values the lenient semantics gives.
module Simulation {
  import opened Words
  import F = Force
  import L = Lenient
  import opened Tass
  import opened Rules
  import opened Codegen

  ghost function NumIn(env: F.Env, x: Var): Option<Word> {
    if x in env then Some(Num(env[x])) else None
  }

  ghost function NumOf(v: Option<Data>): Option<Word> {
    if v.Some? then Some(Num(v.value)) else None
  }

  ghost function TagIf(b: bool, t: Tag): Option<Word> {
    if b then Some(TagWord(t)) else None
  }

  // Under tag t the names of the variables in u carry their values in env.
  ghost predicate VarsAt(T: iset<Token>, vars: map<Var, Name>, u: set<Var>, t: Tag, env: F.Env, full: bool) {
    forall x :: x in u ==> x in vars && At(T, vars[x], t, NumIn(env, x), full)
  }

  // Under tag t literals fire exactly when `live`.
  ghost predicate LiteralsAt(T: iset<Token>, scope: Option<Name>, guard: Option<Name>, t: Tag, live: bool, full: bool) {
    && (scope.None? ==> (live ==> t == NO_TAG) && (guard.None? && t == NO_TAG ==> live))
    && (scope.Some? ==>
          && CarriesOwnTag(T, scope.value)
          && (full && live ==> Token(scope.value, t, TagWord(t)) in T)
          && (guard.None? ==> At(T, scope.value, t, TagIf(live, t), full)))
    && (guard.Some? ==> At(T, guard.value, t, if live then Some(Num(1)) else None, full))
  }

  lemma InProgram(l: Line, lines: seq<Line>, P: seq<Line>)
    requires l in lines && lines <= P
    ensures l in P
  {
  }

  lemma LastLine(lines: seq<Line>, l: Line, P: seq<Line>)
    requires lines + [l] <= P
    ensures l in P && lines <= P
  {
    assert (lines + [l])[|lines|] == l;
  }

  lemma Prefixes(a: seq<Line>, b: seq<Line>, c: seq<Line>)
    requires a <= b <= c
    ensures a <= c
  {
  }

  // ---- Expressions ----

  lemma RawLiteralAt(P: seq<Line>, T: iset<Token>, full: bool, out: Name, n: Data, scope: Option<Name>,
                     guard: Option<Name>, t: Tag, live: bool) returns (w: Option<Word>)
    requires Ok(P, T, full) && RawLiteral(out, n, scope) in P
    requires LiteralsAt(T, scope, guard, t, live, full)
    ensures At(T, out, t, w, full) && (live ==> w == Some(Num(n)) || !full) && (w.Some? ==> w == Some(Num(n)))
    ensures guard.None? ==> w == NumOf(if live then Some(n) else None)
  {
    if scope.None? {
      LiteralAt(P, T, full, out, n, t);
      w := if t == NO_TAG then Some(Num(n)) else None;
    } else {
      var g := if Token(scope.value, t, TagWord(t)) in T || (guard.None? && live) then Some(t) else None;
      assert SentFrom(T, scope.value, t, g, full);
      CopyTagLitAt(P, T, full, out, scope.value, n, t, g);
      w := if g.Some? then Some(Num(n)) else None;
    }
  }

  lemma LiteralCorrect(P: seq<Line>, T: iset<Token>, full: bool, n: Data, out: Name, st: Gen, t: Tag, live: bool)
    requires Ok(P, T, full) && LiteralsAt(T, st.scope, st.guard, t, live, full)
    requires GenLiteral(n, out, st).lines <= P
    ensures At(T, out, t, NumOf(if live then Some(n) else None), full)
  {
    var lines := GenLiteral(n, out, st).lines;
    if st.guard.Some? {
      var tmp := Name("%", st.num + 1);
      var raw, br := RawLiteral(tmp, n, st.scope), Branch(out, None, tmp, st.guard.value);
      assert lines[|st.lines|] == raw && lines[|st.lines| + 1] == br;
      InProgram(raw, lines, P);
      InProgram(br, lines, P);
      var w := RawLiteralAt(P, T, full, tmp, n, st.scope, st.guard, t, live);
      var c := if live then Some(Num(1)) else None;
      BranchTrueAt(P, T, full, out, None, tmp, st.guard.value, t, w, c);
    } else {
      var raw := RawLiteral(out, n, st.scope);
      assert lines[|st.lines|] == raw;
      InProgram(raw, lines, P);
      var w := RawLiteralAt(P, T, full, out, n, st.scope, st.guard, t, live);
    }
  }

  lemma {:induction false} ExprCorrect(P: seq<Line>, T: iset<Token>, full: bool, e: F.Expr, st: Gen, t: Tag,
                                       env: F.Env, live: bool)
    requires Ok(P, T, full) && F.UsedExpr(e) <= st.vars.Keys
    requires VarsAt(T, st.vars, F.UsedExpr(e), t, env, full)
    requires LiteralsAt(T, st.scope, st.guard, t, live, full)
    requires GenExpr(e, st).0.lines <= P
    ensures At(T, GenExpr(e, st).1, t, NumOf(L.Value(e, env, live)), full)
  {
    hide GenExpr, L.Value, Compute, LiteralsAt, Ok, At, NumOf, VarsAt;
    match e
    case Number(_) =>
      NumberCorrect(P, T, full, e, st, t, env, live);
    case Variable(_) =>
      VariableCorrect(T, full, e, st, t, env, live);
    case Binary(op, l, r) =>
      BinaryShape(P, e, st);
      var (st1, a) := GenExpr(l, st);
      var (st2, b) := GenExpr(r, st1);
      FewerAt(T, full, st.vars, F.UsedExpr(e), F.UsedExpr(l), t, env);
      FewerAt(T, full, st.vars, F.UsedExpr(e), F.UsedExpr(r), t, env);
      ExprCorrect(P, T, full, l, st, t, env, live);
      ExprCorrect(P, T, full, r, st1, t, env, live);
      BinaryCorrect(P, T, full, GenExpr(e, st).1, op, a, b, t, L.Value(l, env, live), L.Value(r, env, live));
      BinaryValue(e, env, live);
  }

  lemma NumberCorrect(P: seq<Line>, T: iset<Token>, full: bool, e: F.Expr, st: Gen, t: Tag, env: F.Env, live: bool)
    requires e.Number? && Ok(P, T, full) && LiteralsAt(T, st.scope, st.guard, t, live, full)
    requires F.UsedExpr(e) <= st.vars.Keys && GenExpr(e, st).0.lines <= P
    ensures At(T, GenExpr(e, st).1, t, NumOf(L.Value(e, env, live)), full)
  {
    hide GenLiteral, LiteralsAt, Ok, At;
    LiteralCorrect(P, T, full, e.n, Name("%", st.num + 1), st.(num := st.num + 1), t, live);
  }

  lemma VariableCorrect(T: iset<Token>, full: bool, e: F.Expr, st: Gen, t: Tag, env: F.Env, live: bool)
    requires e.Variable? && F.UsedExpr(e) <= st.vars.Keys && VarsAt(T, st.vars, F.UsedExpr(e), t, env, full)
    ensures At(T, GenExpr(e, st).1, t, NumOf(L.Value(e, env, live)), full)
  {
    hide At;
    assert e.x in F.UsedExpr(e);
  }

  lemma BinaryShape(P: seq<Line>, e: F.Expr, st: Gen)
    requires e.Binary? && F.UsedExpr(e) <= st.vars.Keys && GenExpr(e, st).0.lines <= P
    ensures F.UsedExpr(e.left) <= st.vars.Keys && F.UsedExpr(e.right) <= st.vars.Keys
    ensures var (st1, a) := GenExpr(e.left, st);
      var (st2, b) := GenExpr(e.right, st1);
      st1.lines <= P && st2.lines <= P && Binary(GenExpr(e, st).1, e.op, a, b) in P
  {
    hide GenLiteral;
    var (st1, a) := GenExpr(e.left, st);
    var (st2, b) := GenExpr(e.right, st1);
    var (r, out) := GenExpr(e, st);
    assert r.lines == st2.lines + [Binary(out, e.op, a, b)];
    LastLine(st2.lines, Binary(out, e.op, a, b), P);
    Prefixes(st1.lines, st2.lines, P);
  }

  lemma BinaryValue(e: F.Expr, env: F.Env, live: bool)
    requires e.Binary?
    ensures var a, b := L.Value(e.left, env, live), L.Value(e.right, env, live);
      L.Value(e, env, live) == if a.Some? && b.Some? then Some(Compute(e.op, a.value, b.value)) else None
  {
    hide Compute;
  }

  lemma FewerAt(T: iset<Token>, full: bool, vars: map<Var, Name>, u: set<Var>, w: set<Var>, t: Tag, env: F.Env)
    requires VarsAt(T, vars, u, t, env, full) && w <= u
    ensures VarsAt(T, vars, w, t, env, full)
  {
    hide At;
  }

  lemma BinaryCorrect(P: seq<Line>, T: iset<Token>, full: bool, out: Name, op: BinOp, a: Name, b: Name, t: Tag,
                      x: Option<Data>, y: Option<Data>)
    requires Ok(P, T, full) && Binary(out, op, a, b) in P
    requires At(T, a, t, NumOf(x), full) && At(T, b, t, NumOf(y), full)
    ensures At(T, out, t, NumOf(if x.Some? && y.Some? then Some(Compute(op, x.value, y.value)) else None), full)
  {
    hide Ok, At, Compute;
    BinaryAt(P, T, full, out, op, a, b, t, NumOf(x), NumOf(y));
  }
}
