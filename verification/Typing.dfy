// Which names carry tags: compiled code never computes with a tag and never sends by a number.
module Typing {
  import opened Words
  import F = Force
  import opened Tass
  import opened Codegen
  import opened Compiled
  import C = Correctness

  // The names in K carry tags, the others numbers.
  predicate WellTyped(K: set<Name>, l: Line) {
    match l
    case Literal(out, _) => out !in K
    case Copy(out, src) => out in K <==> src in K
    case Binary(out, _, a, b) => out !in K && a !in K && b !in K
    case Merge(out, a, b) => (out in K <==> a in K) && (out in K <==> b in K)
    case Branch(t, f, src, test) => test !in K && (t in K <==> src in K) && (f.Some? ==> (f.value in K <==> src in K))
    case NewTag(n, o, _) => n in K && o in K
    case CopyTag(out, tagFrom, src) => tagFrom in K && (out in K <==> src in K)
    case CopyTagLit(out, tagFrom, _) => tagFrom in K && out !in K
    case NextIter(out, src) => out in K <==> src in K
    case ResetIter(out, src) => out in K <==> src in K
    case ReadTag(out, _) => out in K
    case Output(src) => src !in K
  }

  ghost predicate Typed(P: seq<Line>, K: set<Name>) {
    forall l :: l in P ==> WellTyped(K, l)
  }

  predicate TypedToken(K: set<Name>, tok: Token) {
    tok.name in K <==> tok.word.TagWord?
  }

  lemma EmitTyped(K: set<Name>, l: Line, ins: Inputs, tok: Token)
    requires WellTyped(K, l) && Matched(l, ins) && tok in Emit(l, ins)
    requires ins.One? || ins.Two? ==> TypedToken(K, ins.x)
    requires ins.Two? ==> TypedToken(K, ins.y)
    ensures TypedToken(K, tok)
  {
    hide Compute;
  }

  // ---- The tokens of a program ----

  // What every closed set of tokens contains.
  ghost function Tokens(P: seq<Line>): iset<Token> {
    iset tok | InEveryClosed(P, tok)
  }

  ghost predicate InEveryClosed(P: seq<Line>, tok: Token) {
    forall T: iset<Token> :: Closed(P, T) ==> tok in T
  }

  lemma TokensClosed(P: seq<Line>)
    ensures Closed(P, Tokens(P))
  {
    hide Closed, Emit, Matched;
    forall l, tok | l in P && Produced(l, Tokens(P), tok)
      ensures tok in Tokens(P)
    {
      forall T: iset<Token> | Closed(P, T)
        ensures tok in T
      {
        var ins :| Yields(l, ins, Tokens(P), tok);
        assert Tokens(P) <= T;
        assert Yields(l, ins, T, tok);
        ClosedHas(P, T, l, tok);
      }
    }
    IsClosed(P, Tokens(P));
  }

  lemma IsClosed(P: seq<Line>, T: iset<Token>)
    requires forall l, tok :: l in P && Produced(l, T, tok) ==> tok in T
    ensures Closed(P, T)
  {
  }

  lemma ClosedHas(P: seq<Line>, T: iset<Token>, l: Line, tok: Token)
    requires Closed(P, T) && l in P && Produced(l, T, tok)
    ensures tok in T
  {
  }

  // ... and every one of them is made by a line from others.
  lemma TokensSupported(P: seq<Line>)
    ensures Supported(P, Tokens(P))
  {
    hide Emit, Matched, Within, Tokens;
    var T := Tokens(P);
    var U := iset tok | tok in T && exists i: nat :: i < |P| && Produced(P[i], T, tok);
    TokensClosed(P);
    forall l, tok | l in P && Produced(l, U, tok)
      ensures tok in U
    {
      ProducedMore(l, U, T, tok);
      ClosedHas(P, T, l, tok);
      var i :| 0 <= i < |P| && P[i] == l;
    }
    IsClosed(P, U);
    forall tok | tok in T ensures tok in U { TokensLeast(P, U, tok); }
  }

  lemma ProducedMore(l: Line, U: iset<Token>, T: iset<Token>, tok: Token)
    requires Produced(l, U, tok) && U <= T
    ensures Produced(l, T, tok)
  {
    hide Emit, Matched;
    var ins :| Yields(l, ins, U, tok);
    assert Yields(l, ins, T, tok);
  }

  lemma TokensLeast(P: seq<Line>, U: iset<Token>, tok: Token)
    requires Closed(P, U) && tok in Tokens(P)
    ensures tok in U
  {
    hide Closed;
    assert InEveryClosed(P, tok);
  }

  // Tokens on the names of K carry tags, all others numbers.
  lemma TokensTyped(P: seq<Line>, K: set<Name>, tok: Token)
    requires Typed(P, K) && tok in Tokens(P)
    ensures TypedToken(K, tok)
  {
    hide WellTyped, Emit, Matched;
    var T := iset t | TypedToken(K, t);
    forall l, t | l in P && Produced(l, T, t)
      ensures t in T
    {
      var ins :| Yields(l, ins, T, t);
      EmitTyped(K, l, ins, t);
    }
    assert InEveryClosed(P, tok);
    IsClosed(P, T);
  }

  // ---- Compiled programs are typed ----

  predicate Old(n: Name, num: nat) { n.num <= num }

  predicate Plain(K: set<Name>, n: Name, num: nat) { n !in K && Old(n, num) }

  ghost predicate TypedLine(K: set<Name>, l: Line, num: nat) {
    WellTyped(K, l) && forall n :: n in Outs(l) + Ins(l) ==> Old(n, num)
  }

  ghost predicate PlainVars(K: set<Name>, vars: map<Var, Name>, num: nat) {
    forall x :: x in vars ==> Plain(K, vars[x], num)
  }

  // The generator's state is typed: nothing mentions a name that is still to come.
  ghost predicate TypedGen(K: set<Name>, st: Gen) {
    && (forall l :: l in st.lines ==> TypedLine(K, l, st.num))
    && PlainVars(K, st.vars, st.num)
    && (st.scope.Some? ==> st.scope.value in K) && (st.guard.Some? ==> Plain(K, st.guard.value, st.num))
    && (forall n :: n in K ==> Old(n, st.num))
  }

  lemma LineLater(K: set<Name>, l: Line, num: nat, K': set<Name>, num': nat)
    requires TypedLine(K, l, num) && num <= num' && K <= K' && forall n :: n in K' && n !in K ==> n.num > num
    ensures TypedLine(K', l, num')
  {
    SameKinds(K, K', l);
  }

  lemma SameKinds(K: set<Name>, K': set<Name>, l: Line)
    requires WellTyped(K, l) && forall n :: n in Outs(l) + Ins(l) ==> (n in K <==> n in K')
    ensures WellTyped(K', l)
  {
    assert forall n :: n in Outs(l) ==> (n in K <==> n in K');
    assert forall n :: n in Ins(l) ==> (n in K <==> n in K');
  }

  // Appending lines; K' adds names that are new.
  lemma Appended(K: set<Name>, st: Gen, K': set<Name>, r: Gen, lines: seq<Line>)
    requires TypedGen(K, st) && r.lines == st.lines + lines && st.num <= r.num && K <= K'
    requires forall n :: n in K' && n !in K ==> st.num < n.num <= r.num
    requires forall l :: l in lines ==> TypedLine(K', l, r.num)
    requires PlainVars(K', r.vars, r.num)
    requires r.scope.Some? ==> r.scope.value in K'
    requires r.guard.Some? ==> Plain(K', r.guard.value, r.num)
    ensures TypedGen(K', r)
  {
    hide TypedLine;
    forall l | l in r.lines
      ensures TypedLine(K', l, r.num)
    {
      if l in st.lines { LineLater(K, l, st.num, K', r.num); }
    }
  }

  lemma VarsLater(K: set<Name>, vars: map<Var, Name>, num: nat, K': set<Name>, num': nat)
    requires PlainVars(K, vars, num) && num <= num' && forall n :: n in K' && n !in K ==> n.num > num
    ensures PlainVars(K', vars, num')
  {
  }

  lemma LiteralTyped(K: set<Name>, n: Data, out: Name, st: Gen)
    requires TypedGen(K, st) && Plain(K, out, st.num)
    ensures TypedGen(K, GenLiteral(n, out, st))
    ensures GenLiteral(n, out, st).num >= st.num
  {
    hide TypedGen;
    var r := GenLiteral(n, out, st);
    TypedParts(K, st);
    VarsLater(K, st.vars, st.num, K, r.num);
    Appended(K, st, K, r, r.lines[|st.lines|..]);
  }

  lemma TypedParts(K: set<Name>, st: Gen)
    requires TypedGen(K, st)
    ensures PlainVars(K, st.vars, st.num) && (st.guard.Some? ==> Plain(K, st.guard.value, st.num))
    ensures forall n :: n in K ==> Old(n, st.num)
    ensures st.scope.Some? ==> st.scope.value in K
  {
  }

  lemma {:induction false} ExprTyped(K: set<Name>, e: F.Expr, st: Gen)
    requires TypedGen(K, st) && F.UsedExpr(e) <= st.vars.Keys
    ensures var (r, n) := GenExpr(e, st);
      TypedGen(K, r) && Plain(K, n, r.num) && st.num <= r.num
  {
    hide TypedGen, GenLiteral, GenExpr;
    TypedParts(K, st);
    match e
    case Number(n) =>
      NumberIs(e, st);
      var st1 := st.(num := st.num + 1);
      VarsLater(K, st.vars, st.num, K, st1.num);
      Appended(K, st, K, st1, []);
      LiteralTyped(K, n, Name("%", st.num + 1), st1);
    case Variable(x) =>
      VariableIs(e, st);
    case Binary(op, a, b) =>
      BinaryIs(e, st);
      var (st1, x) := GenExpr(a, st);
      var (st2, y) := GenExpr(b, st1);
      ExprTyped(K, a, st);
      ExprTyped(K, b, st1);
      TypedParts(K, st2);
      var (r, out) := GenExpr(e, st);
      VarsLater(K, st2.vars, st2.num, K, r.num);
      Appended(K, st2, K, r, [Line.Binary(out, op, x, y)]);
  }

  // ---- Conditionals ----

  ghost predicate PlainNames(K: set<Name>, names: seq<Name>, num: nat) {
    forall j :: 0 <= j < |names| ==> Plain(K, names[j], num)
  }

  lemma {:induction false} RenamePlain(K: set<Name>, vars: map<Var, Name>, q: seq<Var>, names: seq<Name>, k: nat, num: nat)
    requires k <= |q| && k <= |names| && PlainVars(K, vars, num)
    requires PlainNames(K, names, num)
    ensures PlainVars(K, Rename(vars, q, names, k), num)
  {
    if k > 0 { RenamePlain(K, vars, q, names, k - 1, num); }
  }

  lemma SplitLinesTyped(K: set<Name>, q: seq<Var>, vars: map<Var, Name>, cond: Name, base: nat)
    requires (set x | x in q) <= vars.Keys && PlainVars(K, vars, base) && Plain(K, cond, base)
    requires forall n :: n in K ==> Old(n, base)
    ensures forall l :: l in SplitLines(q, vars, cond, base) ==> TypedLine(K, l, base + 2 * |q|)
  {
    var ls := SplitLines(q, vars, cond, base);
    forall l | l in ls
      ensures TypedLine(K, l, base + 2 * |q|)
    {
      var k :| 0 <= k < |q| && ls[k] == l;
      assert q[k] in (set x | x in q);
    }
  }

  lemma SplitTyped(K: set<Name>, q: seq<Var>, cond: Name, st: Gen)
    requires TypedGen(K, st) && (set x | x in q) <= st.vars.Keys && Plain(K, cond, st.num)
    ensures TypedGen(K, Split(q, cond, st))
    ensures var r := Split(q, cond, st);
      st.num + 2 * |q| < r.num && Plain(K, FalseGuard(r), r.num)
  {
    hide TypedGen, GenLiteral, SplitLines, Rename;
    TypedParts(K, st);
    var base := st.num;
    var st1 := st.(lines := st.lines + SplitLines(q, st.vars, cond, base),
                   vars := Rename(st.vars, q, TrueNames(q, base), |q|), num := base + 2 * |q| + 1);
    SplitLinesTyped(K, q, st.vars, cond, base);
    forall l | l in SplitLines(q, st.vars, cond, base)
      ensures TypedLine(K, l, st1.num)
    {
      LineLater(K, l, base + 2 * |q|, K, st1.num);
    }
    VarsLater(K, st.vars, st.num, K, st1.num);
    RenamePlain(K, st.vars, q, TrueNames(q, base), |q|, st1.num);
    Appended(K, st, K, st1, SplitLines(q, st.vars, cond, base));
    var one := Name("%_1", st1.num);
    LiteralTyped(K, 1, one, st1);
    var st2, r := GenLiteral(1, one, st1), Split(q, cond, st);
    TypedParts(K, st2);
    VarsLater(K, st2.vars, st2.num, K, r.num);
    Appended(K, st2, K, r, [Branch(r.guard.value, Some(FalseGuard(r)), one, cond)]);
  }

  lemma {:induction false} MergeTyped(K: set<Name>, q: seq<Var>, tv: map<Var, Name>, fv: map<Var, Name>, st: Gen, k: nat)
    requires k <= |q| && (forall x :: x in q ==> x in tv && x in fv && x in st.vars)
    requires TypedGen(K, st) && PlainVars(K, tv, st.num) && PlainVars(K, fv, st.num)
    ensures var r := MergeVars(q, tv, fv, st, k);
      TypedGen(K, r) && st.num <= r.num
  {
    hide TypedGen, MergeVars, Plain;
    MergeMore(q, tv, fv, st, k);
    if k > 0 {
      MergeTyped(K, q, tv, fv, st, k - 1);
      var p, r, x := MergeVars(q, tv, fv, st, k - 1), MergeVars(q, tv, fv, st, k), q[k - 1];
      PlainLater(K, tv[x], st.num, p.num);
      PlainLater(K, fv[x], st.num, p.num);
      if tv[x] != fv[x] { PhiTyped(K, x, tv[x], fv[x], p, r); }
    }
  }

  lemma PlainLater(K: set<Name>, n: Name, num: nat, num': nat)
    requires Plain(K, n, num) && num <= num'
    ensures Plain(K, n, num')
  {
  }

  lemma PhiTyped(K: set<Name>, x: Var, a: Name, b: Name, p: Gen, r: Gen)
    requires TypedGen(K, p) && Plain(K, a, p.num) && Plain(K, b, p.num)
    requires var phi := Name("_" + x + "_phi%", p.num + 1);
      r == p.(lines := p.lines + [Merge(phi, a, b)], vars := p.vars[x := phi], num := p.num + 1)
    ensures TypedGen(K, r)
  {
    hide TypedGen;
    TypedParts(K, p);
    VarsLater(K, p.vars, p.num, K, r.num);
    Appended(K, p, K, r, [Merge(r.vars[x], a, b)]);
  }

  // ---- Loops ----

  ghost function EnterTags(n: nat, cur: Name): set<Name> {
    {NewTagName(n), OldTagName(n), OldUnderNew(n), cur}
  }

  lemma {:induction false} EnterLinesTyped(K: set<Name>, q: seq<Var>, vars: map<Var, Name>, n: nat, k: nat, num: nat)
    requires k <= |q| && (forall x :: x in q ==> x in vars) && PlainVars(K, vars, n) && n + 3 + 5 * |q| < num
    requires NewTagName(n) in K && forall m :: m in K ==> m.num <= n + 3 || m.num > n + 3 + 5 * |q|
    ensures forall l :: l in EnterLines(q, vars, n, k) ==> TypedLine(K, l, num)
  {
    if k > 0 {
      EnterLinesTyped(K, q, vars, n, k - 1, num);
      var x := q[k - 1];
      assert EntryLines(x, vars[x], n, k - 1)[0] == CopyTag(Tagged(x, n + 3, k - 1), NewTagName(n), vars[x]);
    }
  }

  lemma TagLinesTyped(K: set<Name>, first: Name, n: nat, cur: Name, start: Name, num: nat)
    requires EnterTags(n, cur) <= K && Old(first, n) && cur.num <= num && start.num <= num && n + 3 <= num
    ensures forall l :: l in TagLines(first, n) + [ReadTag(cur, start)] ==> TypedLine(K, l, num)
  {
  }

  lemma StartsPlain(K: set<Name>, q: seq<Var>, n: nat, num: nat)
    requires n + 3 + 5 * |q| <= num && forall m :: m in K ==> m.num <= n + 3 || m.num > n + 3 + 5 * |q|
    ensures PlainNames(K, LoopNames(q, n + 3, Start), num)
  {
  }

  lemma EnterTyped(K: set<Name>, q: seq<Var>, st: Gen) returns (K': set<Name>)
    requires TypedGen(K, st) && |q| > 0 && (set x | x in q) <= st.vars.Keys
    ensures K <= K' && forall n :: n in K' && n !in K ==> st.num < n.num
    ensures TypedGen(K', Enter(q, st)) && OldUnderNew(st.num) in K'
    ensures Enter(q, st).num == st.num + 3 + 5 * |q| + 1
    ensures forall n :: n in K' ==> n.num <= st.num + 3 || n.num > st.num + 3 + 5 * |q|
  {
    hide TypedGen, EnterLines, Rename, LoopNames, TypedLine, TagLines;
    TypedParts(K, st);
    var n, r := st.num, Enter(q, st);
    K' := K + EnterTags(n, r.scope.value);
    assert forall x :: x in q ==> x in st.vars by { forall x | x in q ensures x in st.vars { assert x in (set y | y in q); } }
    VarsLater(K, st.vars, n, K', n);
    VarsLater(K, st.vars, n, K', r.num);
    EnterLinesTyped(K', q, st.vars, n, |q|, r.num);
    TagLinesTyped(K', st.vars[q[0]], n, r.scope.value, Start(q[0], n + 3, 0), r.num);
    StartsPlain(K', q, n, r.num);
    RenamePlain(K', st.vars, q, LoopNames(q, n + 3, Start), |q|, r.num);
    Appended(K, st, K', r, TagLines(st.vars[q[0]], n) + EnterLines(q, st.vars, n, |q|) + [ReadTag(r.scope.value, Start(q[0], n + 3, 0))]);
  }

  lemma {:induction false} TestLinesTyped(K: set<Name>, q: seq<Var>, n: nat, base: nat, cond: Name, k: nat)
    requires k <= |q| && n + 3 + 5 * |q| < base && Plain(K, cond, base) && OldUnderNew(n) in K
    requires forall m :: m in K ==> m.num <= base && (m.num <= n + 3 || m.num > n + 3 + 5 * |q|)
    ensures forall l :: l in TestLines(q, n, base, cond, k) ==> TypedLine(K, l, base + 3 * |q|)
  {
    if k > 0 {
      TestLinesTyped(K, q, n, base, cond, k - 1);
      TurnLinesTyped(K, q[k - 1], n, base, cond, k - 1, |q|);
    }
  }

  lemma TurnLinesTyped(K: set<Name>, x: Var, n: nat, base: nat, cond: Name, k: nat, m: nat)
    requires k < m && n + 3 + 5 * m < base && Plain(K, cond, base) && OldUnderNew(n) in K
    requires forall a :: a in K ==> a.num <= base && (a.num <= n + 3 || a.num > n + 3 + 5 * m)
    ensures forall l :: l in TurnLines(x, n, base, cond, k) ==> TypedLine(K, l, base + 3 * m)
  {
  }

  lemma TestTyped(K: set<Name>, q: seq<Var>, n: nat, cond: Name, st: Gen) returns (K': set<Name>)
    requires TypedGen(K, st) && |q| > 0 && (set x | x in q) <= st.vars.Keys && Plain(K, cond, st.num)
    requires n + 3 + 5 * |q| < st.num && OldUnderNew(n) in K
    requires forall m :: m in K ==> m.num <= n + 3 || m.num > n + 3 + 5 * |q|
    ensures K <= K' && forall n :: n in K' && n !in K ==> st.num < n.num
    ensures TypedGen(K', Codegen.Test(q, n, cond, st))
    ensures Codegen.Test(q, n, cond, st).num >= st.num
  {
    hide TypedGen, TestLines, Rename, LoopNames;
    TypedParts(K, st);
    var base, r := st.num + 1, Codegen.Test(q, n, cond, st);
    K' := K + {r.scope.value};
    VarsLater(K, st.vars, st.num, K', r.num);
    TestLinesTyped(K', q, n, base, cond, |q|);
    RenamePlain(K', st.vars, q, LoopNames(q, n + 3, Again), |q|, r.num);
    Appended(K, st, K', r, [ReadTag(r.scope.value, Again(q[0], n + 3, 0))] + TestLines(q, n, base, cond, |q|));
  }

  lemma {:induction false} BackLinesTyped(K: set<Name>, q: seq<Var>, vars: map<Var, Name>, n: nat, k: nat, num: nat)
    requires k <= |q| && (forall x :: x in q ==> x in vars) && PlainVars(K, vars, num) && n + 3 + 5 * |q| < num
    requires forall m :: m in K ==> m.num <= n + 3 || m.num > n + 3 + 5 * |q|
    ensures forall l :: l in BackLines(q, vars, n, k) ==> TypedLine(K, l, num)
  {
    if k > 0 { BackLinesTyped(K, q, vars, n, k - 1, num); }
  }

  lemma LeaveTyped(K: set<Name>, q: seq<Var>, n: nat, st: Gen, outer: Gen)
    requires TypedGen(K, st) && (set x | x in q) <= st.vars.Keys && n + 3 + 5 * |q| < st.num
    requires forall m :: m in K ==> m.num <= n + 3 || m.num > n + 3 + 5 * |q|
    requires outer.scope.Some? ==> outer.scope.value in K
    requires outer.guard.Some? ==> Plain(K, outer.guard.value, st.num)
    ensures TypedGen(K, Leave(q, n, st, outer))
  {
    hide TypedGen, BackLines, Rename, LoopNames;
    TypedParts(K, st);
    var r := Leave(q, n, st, outer);
    assert forall x :: x in q ==> x in st.vars by { forall x | x in q ensures x in st.vars { assert x in (set y | y in q); } }
    BackLinesTyped(K, q, st.vars, n, |q|, st.num);
    RenamePlain(K, st.vars, q, LoopNames(q, n + 3, End), |q|, r.num);
    Appended(K, st, K, r, BackLines(q, st.vars, n, |q|));
  }

  // ---- Statements ----

  // K' is K and tag names that are new since st.
  ghost predicate TagsGrow(K: set<Name>, K': set<Name>, num: nat) {
    K <= K' && forall n :: n in K' && n !in K ==> n.num > num
  }

  lemma {:induction false} StmtTyped(K: set<Name>, s: F.Stmt, st: Gen) returns (K': set<Name>)
    requires F.Scoped(s, st.vars.Keys) && TypedGen(K, st)
    ensures TagsGrow(K, K', st.num) && TypedGen(K', GenStmt(s, st)) && st.num <= GenStmt(s, st).num
    decreases s, 1
  {
    hide TypedGen, GenExpr, GenIf, GenWhile, MergeVars, Leave, F.Enumerates;
    K' := K;
    GenGrows(s, st);
    match s
    case Skip =>
    case Seq(a, b) =>
      GenGrows(a, st);
      K' := StmtTyped(K, a, st);
      K' := StmtTyped(K', b, GenStmt(a, st));
    case Assign(x, e) =>
      var (st1, v) := GenExpr(e, st);
      ExprTyped(K, e, st);
      AssignTyped(K, x, v, st1);
    case If(_, _, _, _, _) =>
      K' := IfTyped(K, s, st);
    case While(_, _, _) =>
      K' := WhileTyped(K, s, st);
  }

  lemma AssignTyped(K: set<Name>, x: Var, v: Name, st: Gen)
    requires TypedGen(K, st) && Plain(K, v, st.num)
    ensures var out := Name(x + "%", st.num + 1);
      TypedGen(K, st.(lines := st.lines + [Copy(out, v)], vars := st.vars[x := out], num := st.num + 1))
  {
    hide TypedGen;
    TypedParts(K, st);
    var out := Name(x + "%", st.num + 1);
    VarsLater(K, st.vars, st.num, K, st.num + 1);
    Appended(K, st, K, st.(lines := st.lines + [Copy(out, v)], vars := st.vars[x := out], num := st.num + 1), [Copy(out, v)]);
  }

  lemma {:induction false} IfTyped(K: set<Name>, s: F.Stmt, st: Gen) returns (K': set<Name>)
    requires s.If? && F.Scoped(s, st.vars.Keys) && TypedGen(K, st)
    ensures TagsGrow(K, K', st.num) && TypedGen(K', GenStmt(s, st))
    decreases s, 0
  {
    hide TypedGen, GenExpr, GenIf, GenStmt, MergeVars, Split, Rename, FalseNames, F.Scoped;
    var p := GenIf(s, st);
    C.IfShape(s, st);
    IfGrows(s, st);
    ExprTyped(K, s.cond, st);
    SplitTyped(K, s.order, p.cond, p.test);
    var K1 := StmtTyped(K, s.thn, p.thn);
    ElseTyped(K, K1, s.order, p.test, p.thn, p.thnEnd, p.els);
    K' := StmtTyped(K1, s.els, p.els);
    TypedParts(K1, p.thnEnd);
    TypedParts(K', p.elsEnd);
    VarsLater(K1, p.thnEnd.vars, p.thnEnd.num, K', p.elsEnd.num);
    GuardBack(K, K', st, p.elsEnd);
    MergeTyped(K', s.merge, p.thnEnd.vars, p.elsEnd.vars, p.elsEnd.(guard := st.guard), |s.merge|);
  }

  lemma GuardBack(K: set<Name>, K': set<Name>, outer: Gen, st: Gen)
    requires TypedGen(K, outer) && TypedGen(K', st) && TagsGrow(K, K', outer.num) && outer.num <= st.num
    ensures TypedGen(K', st.(guard := outer.guard))
  {
  }

  lemma FalseNamesPlain(K: set<Name>, order: seq<Var>, base: nat, num: nat)
    requires base + 2 * |order| <= num && forall n :: n in K ==> n.num <= base || n.num > base + 2 * |order|
    ensures PlainNames(K, FalseNames(order, base), num)
  {
  }

  lemma ElseTyped(K: set<Name>, K1: set<Name>, order: seq<Var>, test: Gen, thn: Gen, thnEnd: Gen, els: Gen)
    requires TypedGen(K, test) && TypedGen(K, thn) && TypedGen(K1, thnEnd) && TagsGrow(K, K1, thn.num)
    requires test.num + 2 * |order| < thn.num <= thnEnd.num && Plain(K, FalseGuard(thn), thn.num)
    requires els == thnEnd.(vars := Rename(test.vars, order, FalseNames(order, test.num), |order|), guard := Some(FalseGuard(thn)))
    ensures TypedGen(K1, els)
  {
    hide TypedGen, Rename, FalseNames;
    TypedParts(K, test);
    TypedParts(K1, thnEnd);
    FalseNamesPlain(K1, order, test.num, thnEnd.num);
    VarsLater(K, test.vars, test.num, K1, thnEnd.num);
    RenamePlain(K1, test.vars, order, FalseNames(order, test.num), |order|, thnEnd.num);
    Appended(K1, thnEnd, K1, els, []);
  }

  lemma {:induction false} WhileTyped(K: set<Name>, s: F.Stmt, st: Gen) returns (K': set<Name>)
    requires s.While? && F.Scoped(s, st.vars.Keys) && TypedGen(K, st)
    ensures TagsGrow(K, K', st.num) && TypedGen(K', GenStmt(s, st))
    decreases s, 0
  {
    hide TypedGen, GenExpr, Enter, Codegen.Test, Leave;
    var p := GenWhile(s, st);
    WhileGrows(s, st);
    F.ScopedMore(s.body, F.Used(s), st.vars.Keys);
    F.AfterUsed(s.body, st.vars.Keys);
    var K1 := EnterTyped(K, s.order, st);
    ExprTyped(K1, s.cond, p.enter);
    var K2 := TestTyped(K1, s.order, st.num, p.cond, p.test);
    K' := StmtTyped(K2, s.body, p.body);
    TypedParts(K, st);
    LeaveTyped(K', s.order, st.num, p.bodyEnd, st);
  }

  // Every compiled program is typed.
  lemma CompiledTyped(s: F.Stmt, q: seq<Var>) returns (K: set<Name>)
    requires F.Scoped(s, {}) && forall x :: x in q ==> x in F.After(s, {})
    ensures Typed(Compile(s, q), K)
  {
    hide TypedGen, GenStmt, Final, Compile, TypedLine;
    ProgramIs(s, q);
    assert TypedGen({}, START) by { StartTyped(); }
    K := StmtTyped({}, s, START);
    var st := Final(s);
    TypedParts(K, st);
    forall l | l in Compile(s, q)
      ensures WellTyped(K, l)
    {
      if l in st.lines { LineTyped(K, st, l); }
    }
  }

  lemma StartTyped()
    ensures TypedGen({}, START)
  {
  }

  lemma LineTyped(K: set<Name>, st: Gen, l: Line)
    requires TypedGen(K, st) && l in st.lines
    ensures WellTyped(K, l)
  {
    assert TypedLine(K, l, st.num);
  }
}
