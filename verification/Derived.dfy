// Names in the order in which compiled code derives them: a property that every line hands on from
// what it reads to what it defines spreads to all names, once it holds of the starts of the loops.
module Derived {
  import opened Words
  import F = Force
  import opened Tass
  import opened Simulation
  import opened Codegen

  // The names in N have the property.
  predicate Hands(N: iset<Name>, l: Line) {
    (forall n :: n in Ins(l) ==> n in N) ==> forall n :: n in Outs(l) ==> n in N
  }

  ghost predicate HandsOn(P: seq<Line>, N: iset<Name>) {
    forall l :: l in P ==> Hands(N, l)
  }

  ghost predicate VarsIn(N: iset<Name>, vars: map<Var, Name>) {
    forall x :: x in vars ==> vars[x] in N
  }

  ghost predicate AllIn(N: iset<Name>, lines: seq<Line>) {
    forall l, n :: l in lines && n in Outs(l) ==> n in N
  }

  // So far every name has it.
  ghost predicate SoFar(N: iset<Name>, st: Gen) {
    && AllIn(N, st.lines) && VarsIn(N, st.vars)
    && (st.scope.Some? ==> st.scope.value in N) && (st.guard.Some? ==> st.guard.value in N)
  }

  ghost predicate NamesIn(N: iset<Name>, names: seq<Name>) {
    forall k :: 0 <= k < |names| ==> names[k] in N
  }

  lemma SoFarMore(N: iset<Name>, st: Gen, r: Gen, lines: seq<Line>)
    requires SoFar(N, st) && r.lines == st.lines + lines && AllIn(N, lines) && VarsIn(N, r.vars)
    requires (r.scope.Some? ==> r.scope.value in N) && (r.guard.Some? ==> r.guard.value in N)
    ensures SoFar(N, r)
  {
    hide Outs;
  }

  lemma Handed(P: seq<Line>, N: iset<Name>, l: Line)
    requires HandsOn(P, N) && l in P && forall n :: n in Ins(l) ==> n in N
    ensures forall n :: n in Outs(l) ==> n in N
  {
    hide Ins, Outs;
    assert Hands(N, l);
  }

  lemma OneLine(N: iset<Name>, l: Line)
    requires forall n :: n in Outs(l) ==> n in N
    ensures AllIn(N, [l])
  {
    hide Outs;
  }

  lemma NoLines(N: iset<Name>)
    ensures AllIn(N, [])
  {
  }

  lemma Both(N: iset<Name>, a: seq<Line>, b: seq<Line>)
    requires AllIn(N, a) && AllIn(N, b)
    ensures AllIn(N, a + b)
  {
    hide Outs;
  }

  // ---- Expressions ----

  lemma RawIn(P: seq<Line>, N: iset<Name>, out: Name, n: Data, scope: Option<Name>)
    requires HandsOn(P, N) && RawLiteral(out, n, scope) in P && (scope.Some? ==> scope.value in N)
    ensures out in N && AllIn(N, [RawLiteral(out, n, scope)])
  {
    Handed(P, N, RawLiteral(out, n, scope));
    assert out in Outs(RawLiteral(out, n, scope));
  }

  lemma LiteralIn(P: seq<Line>, N: iset<Name>, n: Data, out: Name, st: Gen)
    requires HandsOn(P, N) && SoFar(N, st) && GenLiteral(n, out, st).lines <= P
    ensures SoFar(N, GenLiteral(n, out, st)) && out in N
  {
    hide HandsOn, AllIn, VarsIn, RawLiteral;
    var r := GenLiteral(n, out, st);
    if st.guard.Some? {
      var tmp := Name("%", st.num + 1);
      var a, b := RawLiteral(tmp, n, st.scope), Branch(out, None, tmp, st.guard.value);
      assert a in r.lines && b in r.lines;
      RawIn(P, N, tmp, n, st.scope);
      GuardedIn(P, N, out, tmp, st.guard.value);
      assert [a] + [b] == [a, b];
      Both(N, [a], [b]);
      SoFarMore(N, st, r, [a, b]);
    } else {
      assert RawLiteral(out, n, st.scope) in r.lines;
      RawIn(P, N, out, n, st.scope);
      SoFarMore(N, st, r, [RawLiteral(out, n, st.scope)]);
    }
  }

  lemma GuardedIn(P: seq<Line>, N: iset<Name>, out: Name, src: Name, test: Name)
    requires HandsOn(P, N) && Branch(out, None, src, test) in P && src in N && test in N
    ensures out in N && AllIn(N, [Branch(out, None, src, test)])
  {
    Handed(P, N, Branch(out, None, src, test));
    assert out in Outs(Branch(out, None, src, test));
  }

  lemma {:induction false} ExprIn(P: seq<Line>, N: iset<Name>, e: F.Expr, st: Gen)
    requires HandsOn(P, N) && SoFar(N, st) && F.UsedExpr(e) <= st.vars.Keys && GenExpr(e, st).0.lines <= P
    ensures SoFar(N, GenExpr(e, st).0) && GenExpr(e, st).1 in N
  {
    hide HandsOn, AllIn, GenLiteral;
    match e
    case Number(n) =>
      var st1 := st.(num := st.num + 1);
      LiteralIn(P, N, n, Name("%", st.num + 1), st1);
    case Variable(x) =>
    case Binary(op, a, b) =>
      BinaryShape(P, e, st);
      var (st1, x) := GenExpr(a, st);
      var (st2, y) := GenExpr(b, st1);
      var (r, out) := GenExpr(e, st);
      ExprIn(P, N, a, st);
      ExprIn(P, N, b, st1);
      var l := Line.Binary(out, op, x, y);
      Handed(P, N, l);
      OneLine(N, l);
      assert out in Outs(l);
      SoFarMore(N, st2, r, [l]);
  }

  // ---- Conditionals ----

  lemma {:induction false} RenameIn(N: iset<Name>, vars: map<Var, Name>, q: seq<Var>, names: seq<Name>, k: nat)
    requires k <= |q| && k <= |names| && VarsIn(N, vars) && NamesIn(N, names)
    ensures VarsIn(N, Rename(vars, q, names, k))
  {
    if k > 0 { RenameIn(N, vars, q, names, k - 1); }
  }

  lemma SplitLinesIn(P: seq<Line>, N: iset<Name>, q: seq<Var>, vars: map<Var, Name>, cond: Name, base: nat)
    requires HandsOn(P, N) && (set x | x in q) <= vars.Keys && VarsIn(N, vars) && cond in N
    requires forall l :: l in SplitLines(q, vars, cond, base) ==> l in P
    ensures AllIn(N, SplitLines(q, vars, cond, base)) && NamesIn(N, TrueNames(q, base)) && NamesIn(N, FalseNames(q, base))
  {
    hide HandsOn, TrueNames, FalseNames;
    var ls := SplitLines(q, vars, cond, base);
    forall k: nat | k < |q|
      ensures TrueNames(q, base)[k] in N && FalseNames(q, base)[k] in N
    {
      assert q[k] in (set x | x in q) && ls[k] in ls;
      Handed(P, N, ls[k]);
      assert TrueNames(q, base)[k] in Outs(ls[k]) && FalseNames(q, base)[k] in Outs(ls[k]);
    }
    forall l, n | l in ls && n in Outs(l) ensures n in N { var k :| 0 <= k < |ls| && ls[k] == l; }
  }

  lemma SplitIn(P: seq<Line>, N: iset<Name>, q: seq<Var>, cond: Name, st: Gen)
    requires HandsOn(P, N) && SoFar(N, st) && (set x | x in q) <= st.vars.Keys && cond in N && Split(q, cond, st).lines <= P
    ensures SoFar(N, Split(q, cond, st)) && FalseGuard(Split(q, cond, st)) in N && NamesIn(N, FalseNames(q, st.num))
  {
    hide HandsOn, AllIn, VarsIn, GenLiteral, SplitLines, Rename, TrueNames, FalseNames;
    var base, r := st.num, Split(q, cond, st);
    var st1 := st.(lines := st.lines + SplitLines(q, st.vars, cond, base),
                   vars := Rename(st.vars, q, TrueNames(q, base), |q|), num := base + 2 * |q| + 1);
    var one := Name("%_1", st1.num);
    var st2 := GenLiteral(1, one, st1);
    LiteralAppends(1, one, st1);
    assert st1.lines <= st2.lines <= r.lines <= P;
    forall l | l in SplitLines(q, st.vars, cond, base) ensures l in P { assert l in st1.lines; }
    SplitLinesIn(P, N, q, st.vars, cond, base);
    RenameIn(N, st.vars, q, TrueNames(q, base), |q|);
    SoFarMore(N, st, st1, SplitLines(q, st.vars, cond, base));
    LiteralIn(P, N, 1, one, st1);
    var l := Branch(r.guard.value, Some(FalseGuard(r)), one, cond);
    assert r.lines == st2.lines + [l];
    assert l in r.lines;
    GuardsIn(P, N, r.guard.value, FalseGuard(r), one, cond);
    SoFarMore(N, st2, r, [l]);
  }

  lemma LiteralAppends(n: Data, out: Name, st: Gen)
    ensures st.lines <= GenLiteral(n, out, st).lines
  {
  }

  lemma GuardsIn(P: seq<Line>, N: iset<Name>, t: Name, f: Name, src: Name, test: Name)
    requires HandsOn(P, N) && Branch(t, Some(f), src, test) in P && src in N && test in N
    ensures t in N && f in N && AllIn(N, [Branch(t, Some(f), src, test)])
  {
    var l := Branch(t, Some(f), src, test);
    Handed(P, N, l);
    assert t in Outs(l) && f in Outs(l);
  }

  lemma {:induction false} MergeIn(P: seq<Line>, N: iset<Name>, q: seq<Var>, tv: map<Var, Name>, fv: map<Var, Name>, st: Gen, k: nat)
    requires k <= |q| && (forall x :: x in q ==> x in tv && x in fv && x in st.vars)
    requires HandsOn(P, N) && SoFar(N, st) && VarsIn(N, tv) && VarsIn(N, fv) && MergeVars(q, tv, fv, st, k).lines <= P
    ensures SoFar(N, MergeVars(q, tv, fv, st, k))
  {
    hide HandsOn, AllIn, MergeVars;
    MergeMore(q, tv, fv, st, k);
    if k > 0 {
      var p, r, x := MergeVars(q, tv, fv, st, k - 1), MergeVars(q, tv, fv, st, k), q[k - 1];
      assert p.lines <= r.lines <= P;
      MergeIn(P, N, q, tv, fv, st, k - 1);
      if tv[x] != fv[x] { PhiIn(P, N, x, Merge(r.vars[x], tv[x], fv[x]), p, r); }
    }
  }

  lemma PhiIn(P: seq<Line>, N: iset<Name>, x: Var, l: Line, p: Gen, r: Gen)
    requires HandsOn(P, N) && SoFar(N, p) && l.Merge? && l.a in N && l.b in N && r.lines <= P
    requires r == p.(lines := p.lines + [l], vars := p.vars[x := l.out], num := p.num + 1)
    ensures SoFar(N, r)
  {
    hide HandsOn, AllIn;
    assert l in r.lines;
    Handed(P, N, l);
    OneLine(N, l);
    SoFarMore(N, p, r, [l]);
  }

  // ---- Loops ----

  lemma EntryIn(P: seq<Line>, N: iset<Name>, x: Var, prior: Name, n: nat, k: nat)
    requires HandsOn(P, N) && prior in N && NewTagName(n) in N && Codegen.Start(x, n + 3, k) in N
    requires forall l :: l in EntryLines(x, prior, n, k) ==> l in P
    ensures AllIn(N, EntryLines(x, prior, n, k))
  {
    hide HandsOn, Codegen.Start, Tagged, NewTagName, Codegen.Last;
    var ls := EntryLines(x, prior, n, k);
    assert ls[0] in ls && ls[1] in ls;
    Handed(P, N, ls[0]);
  }

  lemma {:induction false} EnterLinesIn(P: seq<Line>, N: iset<Name>, q: seq<Var>, vars: map<Var, Name>, n: nat, k: nat)
    requires k <= |q| && (forall x :: x in q ==> x in vars) && HandsOn(P, N) && VarsIn(N, vars) && NewTagName(n) in N
    requires NamesIn(N, LoopNames(q, n + 3, Codegen.Start))
    requires forall l :: l in EnterLines(q, vars, n, k) ==> l in P
    ensures AllIn(N, EnterLines(q, vars, n, k))
  {
    hide HandsOn, AllIn, EntryLines, Codegen.Start, NewTagName;
    if k > 0 {
      EnterLinesIn(P, N, q, vars, n, k - 1);
      assert LoopNames(q, n + 3, Codegen.Start)[k - 1] == Codegen.Start(q[k - 1], n + 3, k - 1);
      EntryIn(P, N, q[k - 1], vars[q[k - 1]], n, k - 1);
      Both(N, EnterLines(q, vars, n, k - 1), EntryLines(q[k - 1], vars[q[k - 1]], n, k - 1));
    } else {
      NoLines(N);
    }
  }

  lemma TagLinesIn(P: seq<Line>, N: iset<Name>, first: Name, n: nat)
    requires HandsOn(P, N) && first in N && forall l :: l in TagLines(first, n) ==> l in P
    ensures AllIn(N, TagLines(first, n)) && NewTagName(n) in N && OldUnderNew(n) in N
  {
    hide HandsOn, NewTagName, OldTagName, OldUnderNew;
    var ls := TagLines(first, n);
    assert ls[0] in ls && ls[1] in ls;
    Handed(P, N, ls[0]);
    Handed(P, N, ls[1]);
  }

  lemma ReadTagIn(P: seq<Line>, N: iset<Name>, out: Name, src: Name)
    requires HandsOn(P, N) && src in N && ReadTag(out, src) in P
    ensures out in N && AllIn(N, [ReadTag(out, src)])
  {
    Handed(P, N, ReadTag(out, src));
  }

  lemma EnterIn(P: seq<Line>, N: iset<Name>, q: seq<Var>, st: Gen)
    requires HandsOn(P, N) && SoFar(N, st) && |q| > 0 && (set x | x in q) <= st.vars.Keys && Enter(q, st).lines <= P
    requires NamesIn(N, LoopNames(q, st.num + 3, Codegen.Start))
    ensures SoFar(N, Enter(q, st)) && OldUnderNew(st.num) in N
  {
    hide HandsOn, AllIn, EnterLines, TagLines, Rename, Codegen.Start, NewTagName, OldTagName, OldUnderNew;
    var n, r := st.num, Enter(q, st);
    forall x | x in q ensures x in st.vars { assert x in (set y | y in q); }
    var tags, mid, l := TagLines(st.vars[q[0]], n), EnterLines(q, st.vars, n, |q|), ReadTag(r.scope.value, Codegen.Start(q[0], n + 3, 0));
    forall m | m in tags + mid + [l] ensures m in P { assert m in r.lines; }
    TagLinesIn(P, N, st.vars[q[0]], n);
    EnterLinesIn(P, N, q, st.vars, n, |q|);
    assert LoopNames(q, n + 3, Codegen.Start)[0] == Codegen.Start(q[0], n + 3, 0);
    ReadTagIn(P, N, r.scope.value, Codegen.Start(q[0], n + 3, 0));
    RenameIn(N, st.vars, q, LoopNames(q, n + 3, Codegen.Start), |q|);
    Both(N, tags, mid);
    Both(N, tags + mid, [l]);
    SoFarMore(N, st, r, tags + mid + [l]);
  }

  lemma TurnIn(P: seq<Line>, N: iset<Name>, x: Var, n: nat, base: nat, cond: Name, k: nat)
    requires HandsOn(P, N) && cond in N && OldUnderNew(n) in N && Codegen.Start(x, n + 3, k) in N
    requires forall l :: l in TurnLines(x, n, base, cond, k) ==> l in P
    ensures AllIn(N, TurnLines(x, n, base, cond, k)) && Again(x, n + 3, k) in N && End(x, n + 3, k) in N
  {
    hide HandsOn, Again, Again0, Leave0, End, Codegen.Start, Reset, OldUnderNew;
    var ls := TurnLines(x, n, base, cond, k);
    assert ls[0] in ls && ls[1] in ls && ls[2] in ls && ls[3] in ls;
    Handed(P, N, ls[0]);
    Handed(P, N, ls[1]);
    Handed(P, N, ls[2]);
    Handed(P, N, ls[3]);
  }

  lemma {:induction false} TestLinesIn(P: seq<Line>, N: iset<Name>, q: seq<Var>, n: nat, base: nat, cond: Name, k: nat)
    requires k <= |q| && HandsOn(P, N) && cond in N && OldUnderNew(n) in N && NamesIn(N, LoopNames(q, n + 3, Codegen.Start))
    requires forall l :: l in TestLines(q, n, base, cond, k) ==> l in P
    ensures AllIn(N, TestLines(q, n, base, cond, k))
    ensures forall j :: 0 <= j < k ==> Again(q[j], n + 3, j) in N && End(q[j], n + 3, j) in N
  {
    hide HandsOn, AllIn, TurnLines, Again, End, Codegen.Start, OldUnderNew;
    if k > 0 {
      TestLinesIn(P, N, q, n, base, cond, k - 1);
      assert LoopNames(q, n + 3, Codegen.Start)[k - 1] == Codegen.Start(q[k - 1], n + 3, k - 1);
      TurnIn(P, N, q[k - 1], n, base, cond, k - 1);
      Both(N, TestLines(q, n, base, cond, k - 1), TurnLines(q[k - 1], n, base, cond, k - 1));
    } else {
      NoLines(N);
    }
  }

  lemma TestIn(P: seq<Line>, N: iset<Name>, q: seq<Var>, n: nat, cond: Name, st: Gen)
    requires HandsOn(P, N) && SoFar(N, st) && |q| > 0 && (set x | x in q) <= st.vars.Keys && Codegen.Test(q, n, cond, st).lines <= P
    requires cond in N && OldUnderNew(n) in N && NamesIn(N, LoopNames(q, n + 3, Codegen.Start))
    ensures SoFar(N, Codegen.Test(q, n, cond, st)) && NamesIn(N, LoopNames(q, n + 3, End))
  {
    hide HandsOn, AllIn, TestLines, Rename, Again, End, Codegen.Start, OldUnderNew;
    var base, r := st.num + 1, Codegen.Test(q, n, cond, st);
    var l, ls := ReadTag(r.scope.value, Again(q[0], n + 3, 0)), TestLines(q, n, base, cond, |q|);
    forall m | m in [l] + ls ensures m in P { assert m in r.lines; }
    TestLinesIn(P, N, q, n, base, cond, |q|);
    ReadTagIn(P, N, r.scope.value, Again(q[0], n + 3, 0));
    RenameIn(N, st.vars, q, LoopNames(q, n + 3, Again), |q|);
    Both(N, [l], ls);
    SoFarMore(N, st, r, [l] + ls);
  }

  lemma {:induction false} BackLinesIn(P: seq<Line>, N: iset<Name>, q: seq<Var>, vars: map<Var, Name>, n: nat, k: nat)
    requires k <= |q| && (forall x :: x in q ==> x in vars) && HandsOn(P, N) && VarsIn(N, vars)
    requires forall l :: l in BackLines(q, vars, n, k) ==> l in P
    ensures AllIn(N, BackLines(q, vars, n, k))
  {
    hide HandsOn, AllIn, Codegen.Last;
    if k > 0 {
      BackLinesIn(P, N, q, vars, n, k - 1);
      var l := Copy(Codegen.Last(q[k - 1], n + 3, k - 1), vars[q[k - 1]]);
      assert l in BackLines(q, vars, n, k);
      Handed(P, N, l);
      OneLine(N, l);
      Both(N, BackLines(q, vars, n, k - 1), [l]);
    } else {
      NoLines(N);
    }
  }

  lemma LeaveIn(P: seq<Line>, N: iset<Name>, q: seq<Var>, n: nat, st: Gen, outer: Gen)
    requires HandsOn(P, N) && SoFar(N, st) && SoFar(N, outer) && (set x | x in q) <= st.vars.Keys && NamesIn(N, LoopNames(q, n + 3, End))
    requires Leave(q, n, st, outer).lines <= P
    ensures SoFar(N, Leave(q, n, st, outer))
  {
    hide HandsOn, AllIn, BackLines, Rename, End;
    forall x | x in q ensures x in st.vars { assert x in (set y | y in q); }
    forall l | l in BackLines(q, st.vars, n, |q|) ensures l in P { assert l in Leave(q, n, st, outer).lines; }
    BackLinesIn(P, N, q, st.vars, n, |q|);
    RenameIn(N, st.vars, q, LoopNames(q, n + 3, End), |q|);
    SoFarMore(N, st, Leave(q, n, st, outer), BackLines(q, st.vars, n, |q|));
  }

  // ---- Statements ----

  lemma AssignIn(P: seq<Line>, N: iset<Name>, x: Var, v: Name, st: Gen, r: Gen)
    requires HandsOn(P, N) && SoFar(N, st) && v in N && r.lines <= P && x in r.vars
    requires r == st.(lines := st.lines + [Copy(r.vars[x], v)], vars := st.vars[x := r.vars[x]], num := r.num)
    ensures SoFar(N, r)
  {
    hide HandsOn, AllIn;
    var l := Copy(r.vars[x], v);
    assert l in r.lines;
    Handed(P, N, l);
    OneLine(N, l);
    SoFarMore(N, st, r, [l]);
  }

  // The false branch begins with the names of the test and what both branches have added.
  lemma ElseIn(N: iset<Name>, order: seq<Var>, test: Gen, thn: Gen, thnEnd: Gen, els: Gen)
    requires SoFar(N, test) && SoFar(N, thnEnd) && FalseGuard(thn) in N && NamesIn(N, FalseNames(order, test.num))
    requires els == thnEnd.(vars := Rename(test.vars, order, FalseNames(order, test.num), |order|), guard := Some(FalseGuard(thn)))
    ensures SoFar(N, els)
  {
    hide AllIn, Rename, FalseNames;
    RenameIn(N, test.vars, order, FalseNames(order, test.num), |order|);
  }
}
