// Generated names are never defined twice.
module Numbering {
  import opened Words
  import F = Force
  import opened Tass
  import opened Codegen
  import opened Correctness

  // The lines define names whose numbers lie in s, all different.
  ghost predicate Numbered(lines: seq<Line>, s: set<nat>) {
    && (forall l, n :: l in lines && n in Outs(l) ==> n.num in s)
    && (forall i, j, m, n :: 0 <= i < j < |lines| && m in Outs(lines[i]) && n in Outs(lines[j]) ==> m.num != n.num)
    && (forall l :: l in lines ==> OutsDiffer(l))
  }

  // From state a to state b only lines numbered in s were appended.
  ghost predicate Adds(a: Gen, b: Gen, s: set<nat>) {
    a.lines <= b.lines && a.num <= b.num && Numbered(b.lines[|a.lines|..], s)
  }

  ghost function Between(lo: nat, hi: nat): (s: set<nat>)
    ensures forall k: nat :: k in s <==> lo < k <= hi
  {
    if hi <= lo then {} else Between(lo, hi - 1) + {hi}
  }

  lemma NumberedAppend(a: seq<Line>, b: seq<Line>, s: set<nat>, r: set<nat>, u: set<nat>)
    requires Numbered(a, s) && Numbered(b, r) && s !! r && s + r <= u
    ensures Numbered(a + b, u)
  {
    var c := a + b;
    forall i, j, m, n | 0 <= i < j < |c| && m in Outs(c[i]) && n in Outs(c[j])
      ensures m.num != n.num
    {
      if i < |a| && j < |a| {
        assert c[i] == a[i] && c[j] == a[j];
      } else if i < |a| {
        assert c[i] in a && c[j] in b;
      } else {
        assert c[i] == b[i - |a|] && c[j] == b[j - |a|];
      }
    }
  }

  lemma AddsTrans(a: Gen, b: Gen, c: Gen, s: set<nat>, r: set<nat>, u: set<nat>)
    requires Adds(a, b, s) && Adds(b, c, r) && s !! r && s + r <= u
    ensures Adds(a, c, u)
  {
    assert c.lines[|a.lines|..] == b.lines[|a.lines|..] + c.lines[|b.lines|..];
    NumberedAppend(b.lines[|a.lines|..], c.lines[|b.lines|..], s, r, u);
  }

  lemma AddsNothing(a: Gen, b: Gen)
    requires b.lines == a.lines && a.num <= b.num
    ensures Adds(a, b, {})
  {
  }

  lemma AddsLines(a: Gen, b: Gen, lines: seq<Line>, s: set<nat>)
    requires b.lines == a.lines + lines && a.num <= b.num && Numbered(lines, s)
    ensures Adds(a, b, s)
  {
    assert b.lines[|a.lines|..] == lines;
  }

  // ---- Expressions ----

  lemma LiteralNumbered(n: Data, out: Name, st: Gen)
    requires out.num <= st.num
    ensures Adds(st, GenLiteral(n, out, st), {out.num} + Between(st.num, GenLiteral(n, out, st).num))
  {
    hide Numbered;
    var r := GenLiteral(n, out, st);
    var u := {out.num} + Between(st.num, r.num);
    if st.guard.Some? {
      var tmp := Name("%", st.num + 1);
      var mid := st.(lines := st.lines + [RawLiteral(tmp, n, st.scope)], num := st.num + 1);
      OneLine(st, mid, RawLiteral(tmp, n, st.scope), {tmp.num});
      OneLine(mid, r, Branch(out, None, tmp, st.guard.value), {out.num});
      AddsTrans(st, mid, r, {tmp.num}, {out.num}, u);
    } else {
      OneLine(st, r, RawLiteral(out, n, st.scope), u);
    }
  }

  lemma {:induction false} ExprNumbered(e: F.Expr, st: Gen)
    requires F.UsedExpr(e) <= st.vars.Keys
    ensures Adds(st, GenExpr(e, st).0, Between(st.num, GenExpr(e, st).0.num))
  {
    hide GenLiteral, GenExpr, Numbered;
    var r := GenExpr(e, st).0;
    match e
    case Number(n) =>
      NumberIs(e, st);
      var st1 := st.(num := st.num + 1);
      LiteralNumbered(n, Name("%", st.num + 1), st1);
      AddsNumber(st, st1, r, {st.num + 1} + Between(st1.num, r.num));
      AddsMore(st, r, {st.num + 1} + Between(st1.num, r.num), Between(st.num, r.num));
    case Variable(x) =>
      VariableIs(e, st);
      AddsNothing(st, r);
      AddsMore(st, r, {}, Between(st.num, r.num));
    case Binary(op, a, b) =>
      BinaryIs(e, st);
      var (st1, x) := GenExpr(a, st);
      var (st2, y) := GenExpr(b, st1);
      ExprNumbered(a, st);
      ExprNumbered(b, st1);
      AddsTrans(st, st1, st2, Between(st.num, st1.num), Between(st1.num, st2.num), Between(st.num, st2.num));
      OneLine(st2, r, Binary(GenExpr(e, st).1, op, x, y), {r.num});
      AddsTrans(st, st2, r, Between(st.num, st2.num), {r.num}, Between(st.num, r.num));
  }

  lemma AddsNumber(a: Gen, a': Gen, b: Gen, s: set<nat>)
    requires a'.lines == a.lines && a.num <= a'.num && Adds(a', b, s)
    ensures Adds(a, b, s)
  {
  }

  lemma AddsMore(a: Gen, b: Gen, s: set<nat>, u: set<nat>)
    requires Adds(a, b, s) && s <= u
    ensures Adds(a, b, u)
  {
  }

  lemma OneLine(a: Gen, b: Gen, l: Line, s: set<nat>)
    requires b.lines == a.lines + [l] && a.num <= b.num && OutsDiffer(l)
    requires forall n :: n in Outs(l) ==> n.num in s
    ensures Adds(a, b, s)
  {
    assert b.lines[|a.lines|..] == [l];
  }

  // ---- Conditionals ----

  lemma SplitLinesNumbered(q: seq<Var>, vars: map<Var, Name>, cond: Name, base: nat)
    requires (set x | x in q) <= vars.Keys
    ensures Numbered(SplitLines(q, vars, cond, base), Between(base, base + 2 * |q|))
  {
    hide SplitLines;
    var ls := SplitLines(q, vars, cond, base);
    forall k: nat | k < |q|
      ensures OutsDiffer(ls[k]) && forall n :: n in Outs(ls[k]) ==> base + 2 * k < n.num <= base + 2 * k + 2
    {
      SplitLineNumbered(q, vars, cond, base, k);
    }
  }

  lemma SplitLineNumbered(q: seq<Var>, vars: map<Var, Name>, cond: Name, base: nat, k: nat)
    requires (set x | x in q) <= vars.Keys && k < |q|
    ensures var l := SplitLines(q, vars, cond, base)[k];
      OutsDiffer(l) && forall n :: n in Outs(l) ==> base + 2 * k < n.num <= base + 2 * k + 2
  {
  }

  lemma SplitNumbered(q: seq<Var>, cond: Name, st: Gen)
    requires (set x | x in q) <= st.vars.Keys
    ensures Adds(st, Split(q, cond, st), Between(st.num, Split(q, cond, st).num))
  {
    hide Numbered, SplitLines, GenLiteral, Rename, TrueNames;
    var base, r := st.num, Split(q, cond, st);
    var a := st.(lines := st.lines + SplitLines(q, st.vars, cond, base),
                 vars := Rename(st.vars, q, TrueNames(q, base), |q|), num := base + 2 * |q| + 1);
    var b := GenLiteral(1, Name("%_1", a.num), a);
    SplitLinesNumbered(q, st.vars, cond, base);
    AddsLines(st, a, SplitLines(q, st.vars, cond, base), Between(base, base + 2 * |q|));
    LiteralNumbered(1, Name("%_1", a.num), a);
    AddsTrans(st, a, b, Between(base, base + 2 * |q|), {a.num} + Between(a.num, b.num), Between(base, b.num));
    OneLine(b, r, Branch(Name("%_true", b.num + 1), Some(Name("%_false", b.num + 2)), Name("%_1", a.num), cond),
            Between(b.num, r.num));
    AddsTrans(st, b, r, Between(base, b.num), Between(b.num, r.num), Between(base, r.num));
  }

  lemma {:induction false} MergeNumbered(q: seq<Var>, tv: map<Var, Name>, fv: map<Var, Name>, st: Gen, k: nat)
    requires k <= |q| && forall x :: x in q ==> x in tv && x in fv && x in st.vars
    ensures Adds(st, MergeVars(q, tv, fv, st, k), Between(st.num, MergeVars(q, tv, fv, st, k).num))
    decreases k
  {
    hide Numbered, MergeVars, Adds;
    var r := MergeVars(q, tv, fv, st, k);
    MergeMore(q, tv, fv, st, k);
    if k == 0 {
      AddsNothing(st, r);
    } else {
      var p, x := MergeVars(q, tv, fv, st, k - 1), q[k - 1];
      MergeNumbered(q, tv, fv, st, k - 1);
      if tv[x] != fv[x] {
        OneLine(p, r, Merge(Name("_" + x + "_phi%", p.num + 1), tv[x], fv[x]), {r.num});
        AddsTrans(st, p, r, Between(st.num, p.num), {r.num}, Between(st.num, r.num));
      }
    }
  }

  // ---- Loops ----

  ghost function Places(base: nat, d: set<nat>): (s: set<nat>)
    ensures forall x: nat :: x in s <==> x >= base && x - base in d
  {
    set e | e in d :: base + e
  }

  // Each loop variable has five names numbered after n + 3; these are those at the places in d.
  ghost function Five(base: nat, k: nat, d: set<nat>): (s: set<nat>)
    requires forall e :: e in d ==> 0 < e <= 5
    ensures forall x :: x in s ==> base < x <= base + 5 * k && (x - base - 1) % 5 + 1 in d
  {
    if k == 0 then {} else Five(base, k - 1, d) + Places(base + 5 * (k - 1), d)
  }

  lemma FiveApart(base: nat, k: nat, d: set<nat>, e: set<nat>)
    requires (forall x :: x in d ==> 0 < x <= 5) && (forall x :: x in e ==> 0 < x <= 5) && d !! e
    ensures Five(base, k, d) !! Five(base, k, e)
  {
  }

  lemma FiveNew(base: nat, k: nat, d: set<nat>)
    requires k > 0 && forall e :: e in d ==> 0 < e <= 5
    ensures Five(base, k - 1, d) !! Places(base + 5 * (k - 1), d)
  {
  }

  lemma TwoLines(a: Line, b: Line, s: set<nat>)
    requires OutsDiffer(a) && OutsDiffer(b)
    requires forall m :: m in Outs(a) ==> m.num in s
    requires forall n :: n in Outs(b) ==> n.num in s
    requires forall m, n :: m in Outs(a) && n in Outs(b) ==> m.num != n.num
    ensures Numbered([a, b], s)
  {
  }

  lemma {:induction false} EnterNumbered(q: seq<Var>, vars: map<Var, Name>, n: nat, k: nat)
    requires k <= |q| && forall x :: x in q ==> x in vars
    ensures Numbered(EnterLines(q, vars, n, k), Five(n + 3, k, {1, 4}))
    decreases k
  {
    hide Numbered, EntryLines;
    if k > 0 {
      var j := k - 1;
      var x, added := q[j], Places(n + 3 + 5 * j, {1, 4});
      EnterNumbered(q, vars, n, j);
      EntryNumbered(x, vars[x], n, j, added);
      FiveNew(n + 3, k, {1, 4});
      NumberedAppend(EnterLines(q, vars, n, j), EntryLines(x, vars[x], n, j),
                     Five(n + 3, j, {1, 4}), added, Five(n + 3, k, {1, 4}));
    } else {
      NoLines(Five(n + 3, k, {1, 4}));
    }
  }

  lemma EntryNumbered(x: Var, prior: Name, n: nat, k: nat, s: set<nat>)
    requires n + 3 + 5 * k + 1 in s && n + 3 + 5 * k + 4 in s
    ensures Numbered(EntryLines(x, prior, n, k), s)
  {
    hide Numbered;
    TwoLines(EntryLines(x, prior, n, k)[0], EntryLines(x, prior, n, k)[1], s);
  }

  lemma {:induction false} TestNumbered(q: seq<Var>, n: nat, base: nat, cond: Name, k: nat)
    requires k <= |q| && n + 3 + 5 * |q| < base
    ensures Numbered(TestLines(q, n, base, cond, k), Five(n + 3, k, {3, 5}) + Between(base, base + 3 * k))
    decreases k
  {
    hide Numbered, TurnLines;
    if k > 0 {
      var j := k - 1;
      var five, three := Places(n + 3 + 5 * j, {3, 5}), Between(base + 3 * j, base + 3 * k);
      TestNumbered(q, n, base, cond, j);
      TurnNumbered(q[j], n, base, cond, j, five + three);
      FiveNew(n + 3, k, {3, 5});
      NumberedAppend(TestLines(q, n, base, cond, j), TurnLines(q[j], n, base, cond, j),
                     Five(n + 3, j, {3, 5}) + Between(base, base + 3 * j), five + three,
                     Five(n + 3, k, {3, 5}) + Between(base, base + 3 * k));
    } else {
      NoLines(Five(n + 3, k, {3, 5}) + Between(base, base + 3 * k));
    }
  }

  lemma NoLines(s: set<nat>)
    ensures Numbered([], s)
  {
  }

  lemma TurnNumbered(x: Var, n: nat, base: nat, cond: Name, k: nat, s: set<nat>)
    requires n + 3 + 5 * k + 5 < base
    requires n + 3 + 5 * k + 3 in s && n + 3 + 5 * k + 5 in s
    requires base + 3 * k + 1 in s && base + 3 * k + 2 in s && base + 3 * k + 3 in s
    ensures Numbered(TurnLines(x, n, base, cond, k), s)
  {
    hide Numbered;
    FourLines(TurnLines(x, n, base, cond, k), s);
  }

  lemma FourLines(ls: seq<Line>, s: set<nat>)
    requires |ls| == 4 && forall k :: 0 <= k < 4 ==> OutsDiffer(ls[k])
    requires forall k, n :: 0 <= k < 4 && n in Outs(ls[k]) ==> n.num in s
    requires forall i, j, m, n :: 0 <= i < j < 4 && m in Outs(ls[i]) && n in Outs(ls[j]) ==> m.num != n.num
    ensures Numbered(ls, s)
  {
  }

  lemma {:induction false} BackNumbered(q: seq<Var>, vars: map<Var, Name>, n: nat, k: nat)
    requires k <= |q| && forall x :: x in q ==> x in vars
    ensures Numbered(BackLines(q, vars, n, k), Five(n + 3, k, {2}))
    decreases k
  {
    if k > 0 {
      var j := k - 1;
      var added := Places(n + 3 + 5 * j, {2});
      BackNumbered(q, vars, n, j);
      FiveNew(n + 3, k, {2});
      NumberedAppend(BackLines(q, vars, n, j), [Copy(Last(q[j], n + 3, j), vars[q[j]])],
                     Five(n + 3, j, {2}), added, Five(n + 3, k, {2}));
    }
  }

  ghost function EnterSet(n: nat, m: nat): set<nat> {
    {n + 1, n + 2, n + 3, n + 3 + 5 * m + 1} + Five(n + 3, m, {1, 4})
  }

  lemma EnterAdds(q: seq<Var>, st: Gen)
    requires |q| > 0 && (set x | x in q) <= st.vars.Keys && (forall x :: x in q ==> x in st.vars)
    ensures Adds(st, Enter(q, st), EnterSet(st.num, |q|))
  {
    hide Numbered, Adds, Rename, LoopNames, EnterLines, Five;
    var n, m, r := st.num, |q|, Enter(q, st);
    var tags, mid, last := TagLines(st.vars[q[0]], n), EnterLines(q, st.vars, n, m), [ReadTag(r.scope.value, Start(q[0], n + 3, 0))];
    TwoLines(NewTag(NewTagName(n), OldTagName(n), st.vars[q[0]]),
             CopyTag(OldUnderNew(n), NewTagName(n), OldTagName(n)), {n + 1, n + 2, n + 3});
    EnterNumbered(q, st.vars, n, m);
    OneNumbered(last[0], {n + 3 + 5 * m + 1});
    NumberedAppend(tags, mid, {n + 1, n + 2, n + 3}, Five(n + 3, m, {1, 4}), {n + 1, n + 2, n + 3} + Five(n + 3, m, {1, 4}));
    NumberedAppend(tags + mid, last, {n + 1, n + 2, n + 3} + Five(n + 3, m, {1, 4}), {n + 3 + 5 * m + 1}, EnterSet(n, m));
    AddsLines(st, r, tags + mid + last, EnterSet(n, m));
  }

  lemma OneNumbered(l: Line, s: set<nat>)
    requires OutsDiffer(l) && forall n :: n in Outs(l) ==> n.num in s
    ensures Numbered([l], s)
  {
  }

  ghost function TestSet(n: nat, m: nat, base: nat): set<nat>
    requires base > 0
  {
    Five(n + 3, m, {3, 5}) + Between(base - 1, base + 3 * m)
  }

  lemma TestAdds(q: seq<Var>, n: nat, cond: Name, st: Gen)
    requires |q| > 0 && (set x | x in q) <= st.vars.Keys && n + 3 + 5 * |q| < st.num
    ensures Adds(st, Codegen.Test(q, n, cond, st), TestSet(n, |q|, st.num + 1))
  {
    hide Numbered, Rename, LoopNames, TestLines, Five;
    var base, m, r := st.num + 1, |q|, Codegen.Test(q, n, cond, st);
    var first, ls := [ReadTag(r.scope.value, Again(q[0], n + 3, 0))], TestLines(q, n, base, cond, m);
    OneNumbered(first[0], {base});
    TestNumbered(q, n, base, cond, m);
    NumberedAppend(first, ls, {base}, Five(n + 3, m, {3, 5}) + Between(base, base + 3 * m), TestSet(n, m, base));
    AddsLines(st, r, first + ls, TestSet(n, m, base));
  }

  lemma LeaveAdds(q: seq<Var>, n: nat, st: Gen, outer: Gen)
    requires (set x | x in q) <= st.vars.Keys && (forall x :: x in q ==> x in st.vars)
    ensures Adds(st, Leave(q, n, st, outer), Five(n + 3, |q|, {2}))
  {
    hide Numbered, Rename, LoopNames, BackLines, Five;
    BackNumbered(q, st.vars, n, |q|);
    AddsLines(st, Leave(q, n, st, outer), BackLines(q, st.vars, n, |q|), Five(n + 3, |q|, {2}));
  }

  // ---- Statements ----

  lemma {:induction false} StmtNumbered(s: F.Stmt, st: Gen)
    requires F.Scoped(s, st.vars.Keys)
    ensures Adds(st, GenStmt(s, st), Between(st.num, GenStmt(s, st).num))
    decreases s, 1
  {
    hide Adds, GenExpr, GenIf, GenWhile, F.Enumerates, MergeVars, Leave;
    var r := GenStmt(s, st);
    match s
    case Skip =>
      AddsNothing(st, r);
      AddsMore(st, r, {}, Between(st.num, r.num));
    case Seq(a, b) =>
      var mid := GenStmt(a, st);
      GenGrows(a, st);
      GenGrows(b, mid);
      StmtNumbered(a, st);
      StmtNumbered(b, mid);
      AddsTrans(st, mid, r, Between(st.num, mid.num), Between(mid.num, r.num), Between(st.num, r.num));
    case Assign(x, e) =>
      var (st1, v) := GenExpr(e, st);
      ExprNumbered(e, st);
      OneLine(st1, r, Copy(Name(x + "%", st1.num + 1), v), {r.num});
      AddsTrans(st, st1, r, Between(st.num, st1.num), {r.num}, Between(st.num, r.num));
    case If(_, _, _, _, _) => IfNumbered(s, st);
    case While(_, _, _) => WhileNumbered(s, st);
  }

  lemma {:induction false} IfNumbered(s: F.Stmt, st: Gen)
    requires s.If? && F.Scoped(s, st.vars.Keys)
    ensures Adds(st, GenStmt(s, st), Between(st.num, GenStmt(s, st).num))
    decreases s, 0
  {
    hide Numbered, GenExpr, GenIf, GenStmt, F.Scoped, F.Enumerates, MergeVars, Split, Rename, FalseNames;
    var p, r := GenIf(s, st), GenStmt(s, st);
    IfShape(s, st);
    IfGrows(s, st);
    ExprNumbered(s.cond, st);
    SplitNumbered(s.order, p.cond, p.test);
    StmtNumbered(s.thn, p.thn);
    StmtNumbered(s.els, p.els);
    var last := p.elsEnd.(guard := st.guard);
    MergeNumbered(s.merge, p.thnEnd.vars, p.elsEnd.vars, last, |s.merge|);
    AddsTrans(st, p.test, p.thn, Between(st.num, p.test.num), Between(p.test.num, p.thn.num), Between(st.num, p.thn.num));
    AddsTrans(st, p.thn, p.thnEnd, Between(st.num, p.thn.num), Between(p.thn.num, p.thnEnd.num), Between(st.num, p.thnEnd.num));
    AddsTrans(st, p.els, p.elsEnd, Between(st.num, p.els.num), Between(p.els.num, p.elsEnd.num), Between(st.num, p.elsEnd.num));
    AddsTrans(st, last, r, Between(st.num, last.num), Between(last.num, r.num), Between(st.num, r.num));
  }

  lemma {:induction false} WhileNumbered(s: F.Stmt, st: Gen)
    requires s.While? && F.Scoped(s, st.vars.Keys)
    ensures Adds(st, GenStmt(s, st), Between(st.num, GenStmt(s, st).num))
    decreases s, 0
  {
    hide Adds, GenExpr, GenWhile, GenStmt, F.Scoped, F.Enumerates, Enter, Codegen.Test, Leave, Five;
    var p, r, n, m := GenWhile(s, st), GenStmt(s, st), st.num, |s.order|;
    WhileShape(s, st);
    WhileGrows(s, st);
    LoopNumbers(s, st);
    EnterAdds(s.order, st);
    ExprNumbered(s.cond, p.enter);
    TestAdds(s.order, n, p.cond, p.test);
    StmtNumbered(s.body, p.body);
    LeaveAdds(s.order, n, p.bodyEnd, st);
    var e, t, f := EnterSet(n, m), TestSet(n, m, p.test.num + 1), Five(n + 3, m, {2});
    var b1, b2 := Between(p.enter.num, p.test.num), Between(p.body.num, p.bodyEnd.num);
    LoopSets(n, m, p.test.num, p.bodyEnd.num);
    hide EnterSet, TestSet, Between;
    AddsTrans(st, p.enter, p.test, e, b1, e + b1);
    AddsTrans(st, p.test, p.body, e + b1, t, e + b1 + t);
    AddsTrans(st, p.body, p.bodyEnd, e + b1 + t, b2, e + b1 + t + b2);
    AddsTrans(st, p.bodyEnd, r, e + b1 + t + b2, f, Between(n, r.num));
  }

  // Where the numbers of the parts of a loop lie.
  lemma LoopRanges(n: nat, m: nat, x: nat)
    requires n + 3 + 5 * m + 1 <= x
    ensures EnterSet(n, m) <= Between(n, n + 3 + 5 * m + 1) && Five(n + 3, m, {2}) <= Between(n + 3, n + 3 + 5 * m)
    ensures TestSet(n, m, x + 1) <= Between(n + 3, n + 3 + 5 * m) + Between(x, x + 1 + 3 * m)
  {
    hide Five;
  }

  lemma EnterApart(n: nat, m: nat, x: nat)
    requires n + 3 + 5 * m + 1 <= x
    ensures EnterSet(n, m) !! TestSet(n, m, x + 1) && EnterSet(n, m) !! Five(n + 3, m, {2})
  {
    hide Five;
    FiveApart(n + 3, m, {1, 4}, {3, 5});
    FiveApart(n + 3, m, {1, 4}, {2});
  }

  lemma TestApart(n: nat, m: nat, x: nat)
    requires n + 3 + 5 * m + 1 <= x
    ensures TestSet(n, m, x + 1) !! Five(n + 3, m, {2})
  {
    hide Five;
    FiveApart(n + 3, m, {3, 5}, {2});
  }

  lemma BetweenApart(n: nat, m: nat, x: nat, y: nat, b1: set<nat>, b2: set<nat>)
    requires n + 3 + 5 * m + 1 <= x && x + 1 + 3 * m <= y
    requires b1 == Between(n + 3 + 5 * m + 1, x) && b2 == Between(x + 1 + 3 * m, y)
    ensures b1 !! b2 && EnterSet(n, m) !! b1 && EnterSet(n, m) !! b2
    ensures TestSet(n, m, x + 1) !! b1 && TestSet(n, m, x + 1) !! b2
    ensures Five(n + 3, m, {2}) !! b1 && Five(n + 3, m, {2}) !! b2
  {
    hide Five, EnterSet, TestSet;
    LoopRanges(n, m, x);
  }

  lemma Apart(e: set<nat>, b1: set<nat>, t: set<nat>, b2: set<nat>, f: set<nat>)
    requires e !! b1 && e !! t && e !! b2 && e !! f && b1 !! t && b1 !! b2 && b1 !! f && t !! b2 && t !! f && b2 !! f
    ensures (e + b1) !! t && (e + b1 + t) !! b2 && (e + b1 + t + b2) !! f
  {
  }

  // The numbers of the parts of a loop do not overlap.
  lemma LoopSets(n: nat, m: nat, x: nat, y: nat)
    requires n + 3 + 5 * m + 1 <= x && x + 1 + 3 * m <= y
    ensures var e, t, f := EnterSet(n, m), TestSet(n, m, x + 1), Five(n + 3, m, {2});
      var b1, b2 := Between(n + 3 + 5 * m + 1, x), Between(x + 1 + 3 * m, y);
      e !! b1 && (e + b1) !! t && (e + b1 + t) !! b2 && (e + b1 + t + b2) !! f && e + b1 + t + b2 + f <= Between(n, y)
  {
    hide Five, EnterSet, TestSet;
    var b1, b2 := Between(n + 3 + 5 * m + 1, x), Between(x + 1 + 3 * m, y);
    EnterApart(n, m, x);
    TestApart(n, m, x);
    BetweenApart(n, m, x, y, b1, b2);
    Apart(EnterSet(n, m), b1, TestSet(n, m, x + 1), b2, Five(n + 3, m, {2}));
    LoopRanges(n, m, x);
  }

  lemma LoopNumbers(s: F.Stmt, st: Gen)
    requires s.While? && F.Scoped(s, st.vars.Keys)
    ensures var p, m := GenWhile(s, st), |s.order|;
      && p.enter.num == st.num + 3 + 5 * m + 1 && p.body.num == p.test.num + 1 + 3 * m
      && GenStmt(s, st).num == p.bodyEnd.num
      && m > 0 && (forall x :: x in s.order ==> x in st.vars) && p.bodyEnd.vars.Keys == st.vars.Keys
  {
    hide GenExpr, GenWhile, GenStmt, EnterLines, TestLines, BackLines, Rename, LoopNames, F.Scoped;
    LoopFits(s, st);
    WhileShape(s, st);
  }

  // A compiled program never defines a name twice.
  lemma CompiledSingleDefs(s: F.Stmt, q: seq<Var>)
    requires F.Scoped(s, {}) && forall x :: x in q ==> x in F.After(s, {})
    ensures SingleDefs(Compile(s, q))
  {
    hide GenStmt, Between;
    assert START.vars.Keys == {};
    StmtNumbered(s, START);
    var st := GenStmt(s, START);
    assert st.lines[|START.lines|..] == st.lines;
    PrintsDefineNothing(st.lines, PrintLines(st.vars, q), Between(0, st.num));
  }

  lemma NumberedApart(lines: seq<Line>, s: set<nat>, i: nat, j: nat, n: Name)
    requires Numbered(lines, s) && i < j < |lines| && n in Outs(lines[i])
    ensures n !in Outs(lines[j])
  {
  }

  lemma PrintsDefineNothing(lines: seq<Line>, prints: seq<Line>, s: set<nat>)
    requires Numbered(lines, s) && forall l :: l in prints ==> l.Output?
    ensures SingleDefs(lines + prints)
  {
    var P := lines + prints;
    forall i, j, n | 0 <= i < j < |P| && n in Outs(P[i])
      ensures n !in Outs(P[j])
    {
      if j < |lines| {
        NumberedApart(lines, s, i, j, n);
      } else {
        assert P[j] == prints[j - |lines|] && prints[j - |lines|].Output?;
      }
    }
  }
}
