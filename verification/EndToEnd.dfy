// From source to output: a compiled, assembled program on the machine, under any schedule, prints
// what the source computes.
module EndToEnd {
  import opened Words
  import F = Force
  import L = Lenient
  import A = Adequacy
  import T = Tass
  import G = TokenGame
  import D = Delivery
  import opened Codegen
  import opened Numbering
  import opened Compiled
  import opened Typing
  import S = Spelling
  import opened Types
  import M = Machine
  import opened IrGraph
  import P = Parser
  import opened Placement
  import opened Wiring
  import opened Rendering
  import opened Circuit
  import opened Wires
  import opened Execution
  import opened Following
  import opened Running
  import opened Beginning
  import opened Quiescence

  // ---- A compiled program is sound ----

  // With nothing defined yet, the first line of an expression is a literal.
  lemma {:induction false} ExprFirst(e: F.Expr, st: Gen)
    requires st.lines == [] && st.scope.None? && st.guard.None? && F.UsedExpr(e) == {}
    ensures var r := GenExpr(e, st).0;
      r.lines != [] && r.lines[0].Literal?
  {
    match e
    case Number(_) =>
    case Variable(_) => VariableUsed(e);
    case Binary(_, a, b) =>
      ExprFirst(a, st);
      var st1 := GenExpr(a, st).0;
      assert st1.lines <= GenExpr(b, st1).0.lines;
  }

  lemma VariableUsed(e: F.Expr)
    requires e.Variable?
    ensures F.UsedExpr(e) != {}
  {
    assert e.x in F.UsedExpr(e);
  }

  lemma LoopUses(s: F.Stmt, d: set<Var>)
    requires s.While? && F.Scoped(s, d)
    ensures d != {}
  {
    var q := s.order;
    assert F.Enumerates(q, F.Used(s)) && q[0] in (set x | x in q);
    assert q[0] in F.Used(s);
    assert q[0] in d;
  }

  lemma NoneOf(q: seq<Var>, d: set<Var>)
    requires q != [] && forall x :: x in q ==> x in d
    ensures d != {}
  {
    assert q[0] in q;
  }

  // So a program begins with a literal, unless it has no lines and defines nothing.
  lemma {:induction false} StmtFirst(s: F.Stmt, st: Gen)
    requires st.lines == [] && st.scope.None? && st.guard.None? && st.vars.Keys == {} && F.Scoped(s, {})
    ensures F.Scoped(s, st.vars.Keys)
    ensures var r := GenStmt(s, st);
      if r.lines == [] then r.vars.Keys == {} else r.lines[0].Literal?
  {
    hide GenExpr, GenIf, MergeVars, GenWhile, Leave;
    match s
    case Skip =>
    case Seq(a, b) =>
      StmtFirst(a, st);
      var mid := GenStmt(a, st);
      GenGrows(b, mid);
      if mid.lines == [] { StmtFirst(b, mid); }
    case Assign(x, e) =>
      ExprFirst(e, st);
    case If(c, _, _, _, _) =>
      IfFirst(s, st);
    case While(_, _, _) =>
      LoopUses(s, {});
  }

  lemma IfFirst(s: F.Stmt, st: Gen)
    requires s.If? && st.lines == [] && st.scope.None? && st.guard.None? && st.vars.Keys == {} && F.Scoped(s, st.vars.Keys)
    ensures GenStmt(s, st).lines != [] && GenStmt(s, st).lines[0].Literal?
  {
    hide GenExpr, MergeVars, Split, Rename, GenStmt;
    ExprFirst(s.cond, st);
    IfGrows(s, st);
    var p := GenIf(s, st);
    TestIs(s, st);
    assert p.test.lines <= p.thn.lines <= p.thnEnd.lines <= p.elsEnd.lines <= GenStmt(s, st).lines;
  }

  lemma TestIs(s: F.Stmt, st: Gen)
    requires s.If? && F.Scoped(s, st.vars.Keys)
    ensures GenIf(s, st).test == GenExpr(s.cond, st).0
  {
    hide GenExpr, MergeVars, Split, Rename;
  }

  lemma CompiledFirst(s: F.Stmt, q: seq<Var>)
    requires D.Prints(s, q)
    ensures Compile(s, q) != [] ==> Compile(s, q)[0].Literal?
  {
    hide GenStmt, Compile, Compiled.Final;
    ProgramIs(s, q);
    assert START.vars.Keys == {};
    StmtFirst(s, START);
    var st := Compiled.Final(s);
    if st.lines != [] {
      assert Compile(s, q)[0] == st.lines[0];
    } else {
      if q != [] { NoneOf(q, F.After(s, {})); }
    }
  }

  lemma CompiledMerges(s: F.Stmt, q: seq<Var>)
    requires D.Prints(s, q)
    ensures MergesDiffer(Compile(s, q))
  {
    hide Compile, S.Defined, S.GoodText, F.Scoped;
    S.CompiledFine(s, q);
    var P := Compile(s, q);
    forall i | 0 <= i < |P| && P[i].Merge? ensures P[i].a != P[i].b { assert S.FineLine(P, P[i]) || S.FinePrint(P, P[i]); }
  }

  lemma CompiledSpelling(s: F.Stmt, q: seq<Var>)
    requires D.Prints(s, q)
    ensures Spells(S.Spell, Compile(s, q))
  {
    hide Compile, S.Spell, F.Scoped;
    var P := Compile(s, q);
    forall n | Mentions(P, n) ensures S.Occurs(P, n) { MentionOccurs(P, n); }
    forall m, n | Mentions(P, m) && Mentions(P, n)
      ensures S.Spell(m) == S.Spell(n) ==> m == n
    {
      S.CompiledSpells(s, q, m, n);
    }
    forall n | Mentions(P, n) ensures S.Spell(n) != "_" { S.CompiledSpells(s, q, n, n); }
  }

  lemma MentionOccurs(P: seq<T.Line>, n: T.Name)
    requires Mentions(P, n)
    ensures S.Occurs(P, n)
  {
    var i :| 0 <= i < |P| && n in T.Outs(P[i]) + T.Ins(P[i]);
    assert P[i] in P;
  }

  // The rows of a compiled program.
  function Assembly(s: F.Stmt, q: seq<Var>): seq<P.Row>
    requires D.Prints(s, q)
  {
    Rows(Compile(s, q), S.Spell)
  }

  // The machine holds the compiled and assembled program.
  ghost predicate Loaded(s: F.Stmt, q: seq<Var>, u: Setup) {
    D.Prints(s, q) && u.P == Compile(s, q) && BuiltFrom(Assembly(s, q), u.c)
  }

  lemma LoadedMarked(s: F.Stmt, q: seq<Var>, u: Setup)
    requires Loaded(s, q, u) && Implements(u.P, u.c)
    ensures SecondsMarked(u.c)
  {
    hide Compile, Implements, F.Scoped, S.Spell;
    CompiledFirst(s, q);
    CompiledSpelling(s, q);
    CompiledSingleDefs(s, q);
    var t := P.TableOf(Assembly(s, q), |u.P|);
    RowsParse(u.P, S.Spell, |u.P|);
    if u.P == [] {
      NoNodes(u.c, t);
    } else {
      FirstLeft(u, t);
      AllMarked(u.P, u.c);
    }
  }

  lemma NoNodes(c: Circuit, t: P.Table)
    requires c.nodes == [] && Finished(c.nodes, c.labels, c.order, c.idx, c.insts, |c.order|)
    ensures SecondsMarked(c)
  {
  }

  lemma FirstLeft(u: Setup, t: P.Table)
    requires TableIs(u.P, S.Spell, |u.P|, t) && SameNodes(u.c.nodes, t) && LeftOk(t, u.c.nodes, u.c.left) && u.P != [] && u.P[0].Literal?
    ensures u.c.left != [] && u.c.left[0] == 0
  {
    hide TableIs, SameNodes, S.Spell;
    LineNode(u.P, S.Spell, u.c.nodes, t, 0);
    assert Main(u.P, 0) == 0;
  }

  lemma LoadedSound(s: F.Stmt, q: seq<Var>, u: Setup)
    requires Loaded(s, q, u)
    ensures Sound(u)
  {
    hide Compile, BuiltFrom, Regular, T.SingleDefs, SecondsMarked, Implements, Typed, F.Scoped, S.Spell, MergesDiffer, Spells;
    CompiledSingleDefs(s, q);
    CompiledRegular(s, q);
    CompiledMerges(s, q);
    CompiledSpelling(s, q);
    var K := CompiledTyped(s, q);
    BuiltImplements(u.P, S.Spell, u.c);
    LoadedMarked(s, q, u);
  }

  // ---- The game behind a run of the machine ----

  function RunOf(gs: seq<G.Game>): nat -> G.Game
    requires gs != []
  {
    (n: nat) => if n < |gs| then gs[n] else gs[|gs| - 1]
  }

  lemma RunOfIs(P: seq<T.Line>, gs: seq<G.Game>)
    requires G.Path(P, gs)
    ensures G.IsRun(P, RunOf(gs))
  {
    hide G.Init, G.Next;
    var r := RunOf(gs);
    forall n: nat
      ensures G.Next(P, r(n), r(n + 1))
    {
      if n < |gs| - 1 { assert r(n) == gs[n] && r(n + 1) == gs[n + 1]; } else { G.NextSame(P, r(n)); }
    }
  }

  // A finite run that ends in silence has neglected nothing.
  lemma SilentIsFair(P: seq<T.Line>, gs: seq<G.Game>)
    requires Regular(P) && G.Path(P, gs) && Silent(P, gs[|gs| - 1])
    ensures G.Fair(P, RunOf(gs))
  {
    hide Regular, G.Enabled, G.Inv, G.IsRun;
    var r, last := RunOf(gs), |gs| - 1;
    RunOfIs(P, gs);
    forall n: nat, f | G.Enabled(P, r(n), f)
      ensures G.Fires(r, f)
    {
      var m := if n < last then last else n;
      G.RunInv(P, r, n);
      G.RunInv(P, r, m);
      G.EnabledWithin(P, r(n), f);
      G.History(P, r, n, m);
      G.WithinMore(f.ins, G.Sent(r(n)), G.Sent(r(m)));
      EnabledFits(P, r(n), f);
      G.MatchedFires(P, r(m), f);
    }
  }

  lemma EnabledFits(P: seq<T.Line>, g: G.Game, f: G.Firing)
    requires G.Enabled(P, g, f)
    ensures G.Fits(P, f)
  {
  }

  // ---- What the program should print ----

  // The values of the printed variables that have one.
  function Output(env: F.Env, q: seq<Var>, k: nat): multiset<M.Item>
    requires k <= |q|
  {
    if k == 0 then multiset{} else
      Output(env, q, k - 1) + (if q[k - 1] in env then multiset{M.PrintedNumber(env[q[k - 1]])} else multiset{})
  }

  function PrintParts(s: F.Stmt, q: seq<Var>, env: F.Env, k: nat): seq<Part>
    requires D.Prints(s, q) && k <= |q|
  {
    if k == 0 then [] else
      PrintParts(s, q, env, k - 1) + (if q[k - 1] in env then [Printed(D.Printing(s, q, k - 1, env[q[k - 1]]))] else [])
  }

  lemma {:induction false} OutputIs(u: Setup, s: F.Stmt, q: seq<Var>, env: F.Env, k: nat)
    requires D.Prints(s, q) && k <= |q|
    ensures Flight(u, PrintParts(s, q, env, k)) == Output(env, q, k)
    decreases k
  {
    hide Compiled.Final, F.Scoped, Flight, HeldBy, HeldOf, ItemOf, M.Only, D.Printing;
    if k == 0 {
      EmptyPart(u);
    } else {
      OutputIs(u, s, q, env, k - 1);
      var before := PrintParts(s, q, env, k - 1);
      if q[k - 1] in env {
        var p := Printed(D.Printing(s, q, k - 1, env[q[k - 1]]));
        More(u, before, p);
        PrintingItem(u, s, q, k - 1, env[q[k - 1]]);
        assert PrintParts(s, q, env, k) == before + [p];
      } else {
        assert PrintParts(s, q, env, k) == before + [] == before;
      }
    }
  }

  lemma PrintingItem(u: Setup, s: F.Stmt, q: seq<Var>, j: nat, v: Data)
    requires D.Prints(s, q) && j < |q|
    ensures M.Only(ItemOf(u, Printed(D.Printing(s, q, j, v)))) == multiset{M.PrintedNumber(v)}
  {
    hide Compiled.Final, F.Scoped;
  }

  // The firing that prints the j-th variable.
  ghost predicate PrintsVar(s: F.Stmt, q: seq<Var>, env: F.Env, j: nat, f: G.Firing)
    requires D.Prints(s, q) && j < |q|
  {
    q[j] in env && f == D.Printing(s, q, j, env[q[j]])
  }

  // f prints one of the first k variables.
  ghost predicate PrintsSome(s: F.Stmt, q: seq<Var>, env: F.Env, k: nat, f: G.Firing)
    requires D.Prints(s, q) && k <= |q|
  {
    exists j: nat :: j < k && PrintsVar(s, q, env, j, f)
  }

  lemma PrintsNext(s: F.Stmt, q: seq<Var>, env: F.Env, k: nat, f: G.Firing)
    requires D.Prints(s, q) && 0 < k <= |q|
    ensures PrintsSome(s, q, env, k, f) <==> PrintsSome(s, q, env, k - 1, f) || PrintsVar(s, q, env, k - 1, f)
    ensures !(PrintsSome(s, q, env, k - 1, f) && PrintsVar(s, q, env, k - 1, f))
  {
    hide Compiled.Final, F.Scoped;
  }

  // Each is listed once, and nothing else.
  lemma {:induction false} PrintPartsAre(s: F.Stmt, q: seq<Var>, env: F.Env, k: nat, p: Part)
    requires D.Prints(s, q) && k <= |q|
    ensures multiset(PrintParts(s, q, env, k))[p] == if p.Printed? && PrintsSome(s, q, env, k, p.f) then 1 else 0
    decreases k
  {
    hide D.Prints, D.Printing, PrintsSome;
    if k == 0 {
      if p.Printed? { NoneSome(s, q, env, p.f); }
    } else {
      PrintPartsAre(s, q, env, k - 1, p);
      if p.Printed? { PrintsNext(s, q, env, k, p.f); }
      var before := PrintParts(s, q, env, k - 1);
      if q[k - 1] in env {
        OneMore(before, Printed(D.Printing(s, q, k - 1, env[q[k - 1]])), p);
      } else {
        assert before + [] == before;
      }
    }
  }

  lemma NoneSome(s: F.Stmt, q: seq<Var>, env: F.Env, f: G.Firing)
    requires D.Prints(s, q)
    ensures !PrintsSome(s, q, env, 0, f)
  {
  }

  lemma OneMore<A>(q: seq<A>, a: A, p: A)
    ensures multiset(q + [a])[p] == multiset(q)[p] + if a == p then 1 else 0
  {
  }

  // A print line is one of those at the end.
  lemma PrintLineIs(s: F.Stmt, q: seq<Var>, f: G.Firing)
    requires D.Prints(s, q) && IsPrint(Compile(s, q), f)
    ensures |Compiled.Final(s).lines| <= f.line < |Compiled.Final(s).lines| + |q|
  {
    hide Compile, Compiled.Final, F.Scoped, S.AllFine;
    ProgramIs(s, q);
    S.CompiledFine(s, q);
    var lines := Compiled.Final(s).lines;
    if f.line < |lines| { LineIn(lines, f.line); }
  }

  lemma LineIn(lines: seq<T.Line>, k: nat)
    requires k < |lines|
    ensures lines[k] in lines
  {
  }

  // At any time at most the right values have been printed, each at most once.
  lemma PrintedSafely(s: F.Stmt, q: seq<Var>, u: Setup, gs: seq<G.Game>, f: G.Firing)
    requires Loaded(s, q, u) && G.Path(u.P, gs) && IsPrint(u.P, f)
    ensures var g := gs[|gs| - 1]; var env := L.Run(s, map[], true);
      g.done[f] <= if PrintsSome(s, q, env, |q|, f) then 1 else 0
  {
    hide Compile, Compiled.Final, L.Run, F.Scoped, G.IsRun, BuiltFrom;
    var g := gs[|gs| - 1];
    RunOfIs(u.P, gs);
    PrintLineIs(s, q, f);
    if f in g.done {
      var j := f.line - |Compiled.Final(s).lines|;
      assert RunOf(gs)(|gs| - 1) == g;
      D.PrintsSafely(s, q, RunOf(gs), |gs| - 1, f, j);
      assert PrintsVar(s, q, L.Run(s, map[], true), j, f);
    }
  }

  // In the end all of them have been.
  lemma PrintedAll(s: F.Stmt, q: seq<Var>, u: Setup, gs: seq<G.Game>, j: nat)
    requires Loaded(s, q, u) && G.Path(u.P, gs) && Silent(u.P, gs[|gs| - 1]) && j < |q| && q[j] in L.Run(s, map[], true)
    ensures D.Printing(s, q, j, L.Run(s, map[], true)[q[j]]) in gs[|gs| - 1].done
  {
    hide Compile, Compiled.Final, L.Run, F.Scoped, G.IsRun, G.Fair, BuiltFrom, Silent, D.Printing, Regular;
    CompiledRegular(s, q);
    RunOfIs(u.P, gs);
    SilentIsFair(u.P, gs);
    var f := D.Printing(s, q, j, L.Run(s, map[], true)[q[j]]);
    D.PrintsEventually(s, q, RunOf(gs), j);
    DoneAtEnd(u.P, gs, f);
  }

  lemma EndsThere(gs: seq<G.Game>, m: nat)
    requires gs != [] && m >= |gs| - 1
    ensures RunOf(gs)(m) == gs[|gs| - 1]
  {
  }

  lemma DoneAtEnd(P: seq<T.Line>, gs: seq<G.Game>, f: G.Firing)
    requires G.Path(P, gs) && G.Fires(RunOf(gs), f)
    ensures f in gs[|gs| - 1].done
  {
    hide G.Path, G.IsRun, RunOf;
    G.PathEnds(P, gs);
    RunOfIs(P, gs);
    var r, last := RunOf(gs), |gs| - 1;
    var n: nat :| f in r(n).done;
    var m := if n < last then last else n;
    G.History(P, r, n, m);
    EndsThere(gs, m);
  }

  // ---- The whole story ----

  // The machine u loaded with the program, after n steps from its start.
  ghost predicate Reaches(u: Setup, t: M.State, n: nat) {
    M.Steps(u.Machine(), M.Start(u.Machine()), t, n)
  }

  lemma PrintPartsBound(s: F.Stmt, q: seq<Var>, u: Setup, parts: seq<Part>, gs: seq<G.Game>)
    requires Loaded(s, q, u) && G.Path(u.P, gs) && PrintsAre(u.P, multiset(parts), gs[|gs| - 1]) && forall p :: p in parts ==> PartOk(u, p)
    ensures D.Prints(s, q) && multiset(PrintsOf(parts)) <= multiset(PrintParts(s, q, L.Run(s, map[], true), |q|))
  {
    hide Loaded, L.Run, F.Scoped, G.Path, PartOk, PrintsAre, PrintParts, PrintsOf, D.Prints;
    LoadedPrints(s, q, u);
    forall p
      ensures multiset(PrintsOf(parts))[p] <= multiset(PrintParts(s, q, L.Run(s, map[], true), |q|))[p]
    {
      BoundAt(s, q, u, parts, gs, p);
    }
  }

  lemma BoundAt(s: F.Stmt, q: seq<Var>, u: Setup, parts: seq<Part>, gs: seq<G.Game>, p: Part)
    requires Loaded(s, q, u) && D.Prints(s, q) && G.Path(u.P, gs) && PrintsAre(u.P, multiset(parts), gs[|gs| - 1])
    requires forall x :: x in parts ==> PartOk(u, x)
    ensures multiset(PrintsOf(parts))[p] <= multiset(PrintParts(s, q, L.Run(s, map[], true), |q|))[p]
  {
    hide Loaded, L.Run, F.Scoped, G.Path, PartOk, PrintParts, PrintsOf, PrintsSome, D.Prints;
    var env := L.Run(s, map[], true);
    PrintsCount(parts, p);
    PrintPartsAre(s, q, env, |q|, p);
    if p.Printed? && p in multiset(parts) {
      PrintedOk(u, parts, p);
      G.PathEnds(u.P, gs);
      PrintedSafely(s, q, u, gs, p.f);
    }
  }

  lemma PrintedOk(u: Setup, parts: seq<Part>, p: Part)
    requires (forall x :: x in parts ==> PartOk(u, x)) && p in multiset(parts) && p.Printed?
    ensures IsPrint(u.P, p.f)
  {
    assert p in parts;
  }

  // Whenever the machine is stopped: what has been printed is part of what should be.
  lemma PrintsNothingElse(s: F.Stmt, q: seq<Var>, u: Setup, t: M.State, n: nat, i: M.Item)
    requires Loaded(s, q, u) && FreshRun(u, n) && Reaches(u, t, n) && IsPrinted(i)
    ensures t.flight[i] <= Output(L.Run(s, map[], true), q, |q|)[i]
  {
    hide Loaded, FreshRun, L.Run, F.Scoped, Flight, HeldBy, WaitsAre, PrintsAre, Playing, PartOk, G.Path, Output, PrintParts, D.Prints, Sound;
    LoadedSound(s, q, u);
    LoadedPrints(s, q, u);
    var parts, gs := ReachableFollows(u, t, n);
    G.PathEnds(u.P, gs);
    PrintPartsBound(s, q, u, parts, gs);
    PrintedItems(u, parts, i);
    FewerItems(u, PrintsOf(parts), PrintParts(s, q, L.Run(s, map[], true), |q|));
    OutputIs(u, s, q, L.Run(s, map[], true), |q|);
  }

  lemma LoadedPrints(s: F.Stmt, q: seq<Var>, u: Setup)
    requires Loaded(s, q, u)
    ensures D.Prints(s, q)
  {
  }

  lemma AllPrinted(s: F.Stmt, q: seq<Var>, u: Setup, parts: seq<Part>, gs: seq<G.Game>)
    requires Loaded(s, q, u) && G.Path(u.P, gs) && Silent(u.P, gs[|gs| - 1]) && PrintsAre(u.P, multiset(parts), gs[|gs| - 1])
    ensures D.Prints(s, q)
    ensures multiset(PrintParts(s, q, L.Run(s, map[], true), |q|)) <= multiset(PrintsOf(parts))
  {
    hide Loaded, L.Run, F.Scoped, G.Path, G.Next, Silent, D.Printing, Compile;
    LoadedPrints(s, q, u);
    var env := L.Run(s, map[], true);
    forall p
      ensures multiset(PrintParts(s, q, env, |q|))[p] <= multiset(PrintsOf(parts))[p]
    {
      PrintsCount(parts, p);
      PrintPartsAre(s, q, env, |q|, p);
      if p.Printed? {
        if PrintsSome(s, q, env, |q|, p.f) {
          var j: nat :| j < |q| && PrintsVar(s, q, env, j, p.f);
          G.PathEnds(u.P, gs);
          PrintedAll(s, q, u, gs, j);
          PrintingIsPrint(s, q, u, j, env[q[j]]);
        }
      }
    }
  }

  lemma PrintingIsPrint(s: F.Stmt, q: seq<Var>, u: Setup, j: nat, v: Data)
    requires Loaded(s, q, u) && j < |q|
    ensures D.Prints(s, q) && IsPrint(u.P, D.Printing(s, q, j, v))
  {
    hide Compile, BuiltFrom, F.Scoped, Compiled.Final;
    D.PrintLine(s, q, j);
  }

  // When it has nothing more to do, exactly the values of the dataflow result have been printed.
  lemma PrintsExactly(s: F.Stmt, q: seq<Var>, u: Setup, t: M.State, n: nat)
    requires Loaded(s, q, u) && FreshRun(u, n) && Reaches(u, t, n) && M.Quiet(t)
    ensures t.flight == Output(L.Run(s, map[], true), q, |q|)
  {
    hide Loaded, FreshRun, L.Run, F.Scoped, Flight, HeldBy, WaitsAre, PrintsAre, Playing, PartOk, G.Path, Output, PrintParts, D.Prints, Sound, Silent;
    LoadedSound(s, q, u);
    LoadedPrints(s, q, u);
    var parts, gs := ReachableFollows(u, t, n);
    G.PathEnds(u.P, gs);
    QuietIsSilent(u, t, parts, gs[|gs| - 1]);
    AllPrinted(s, q, u, parts, gs);
    var env := L.Run(s, map[], true);
    FewerItems(u, PrintParts(s, q, env, |q|), PrintsOf(parts));
    OutputIs(u, s, q, env, |q|);
    forall i: M.Item
      ensures t.flight[i] == Output(env, q, |q|)[i]
    {
      OutputPrinted(env, q, |q|, i);
      if IsPrinted(i) {
        PrintsNothingElse(s, q, u, t, n, i);
        PrintedItems(u, parts, i);
      } else {
        QuietItem(t, i);
      }
    }
  }

  lemma QuietItem(t: M.State, i: M.Item)
    requires M.Quiet(t) && !IsPrinted(i)
    ensures t.flight[i] == 0
  {
  }

  lemma {:induction false} OutputPrinted(env: F.Env, q: seq<Var>, k: nat, i: M.Item)
    requires k <= |q|
    ensures !IsPrinted(i) ==> Output(env, q, k)[i] == 0
  {
    if k > 0 { OutputPrinted(env, q, k - 1, i); }
  }

  // ---- The source ----

  // The values the printed variables have at the end of the source program.
  function SourceOutput(env: F.Env, q: seq<Var>, k: nat): multiset<M.Item>
    requires k <= |q|
  {
    if k == 0 then multiset{} else SourceOutput(env, q, k - 1) + multiset{M.PrintedNumber(F.Lookup(env, q[k - 1]))}
  }

  lemma {:induction false} SameOutput(source: F.Env, env: F.Env, q: seq<Var>, u: set<Var>, k: nat)
    requires A.Agrees(source, env, u) && (forall x :: x in q ==> x in u) && k <= |q|
    ensures Output(env, q, k) == SourceOutput(source, q, k)
  {
    if k > 0 {
      SameOutput(source, env, q, u, k - 1);
      assert q[k - 1] in u;
    }
  }

  // If the source terminates, then whatever the schedule: once the machine has nothing more to do,
  // it has printed exactly the final values of the source, and nothing else in the meantime.
  lemma SourcePrinted(s: F.Stmt, q: seq<Var>, u: Setup, t: M.State, n: nat)
    requires Loaded(s, q, u) && FreshRun(u, n) && Reaches(u, t, n) && F.Exec(s, map[]).Some?
    ensures M.Quiet(t) ==> t.flight == SourceOutput(F.Exec(s, map[]).value, q, |q|)
    ensures forall i :: IsPrinted(i) ==> t.flight[i] <= SourceOutput(F.Exec(s, map[]).value, q, |q|)[i]
  {
    hide Loaded, FreshRun, L.Run, F.Scoped, F.Exec, Output, SourceOutput, M.Quiet, Reaches, D.Prints;
    LoadedAdequate(s, q, u);
    if M.Quiet(t) { PrintsExactly(s, q, u, t, n); }
    forall i | IsPrinted(i)
      ensures t.flight[i] <= SourceOutput(F.Exec(s, map[]).value, q, |q|)[i]
    {
      PrintsNothingElse(s, q, u, t, n, i);
    }
  }

  lemma LoadedAdequate(s: F.Stmt, q: seq<Var>, u: Setup)
    requires Loaded(s, q, u) && F.Exec(s, map[]).Some?
    ensures Output(L.Run(s, map[], true), q, |q|) == SourceOutput(F.Exec(s, map[]).value, q, |q|)
  {
    hide BuiltFrom, L.Run, F.Scoped, F.Exec, Compile, Output, SourceOutput;
    A.Adequate(s, {}, map[], map[]);
    SameOutput(F.Exec(s, map[]).value, L.Run(s, map[], true), q, F.After(s, {}), |q|);
  }

  // No state of a loaded program is unsafe, so the schedule does not matter: all runs that end do
  // so after the same number of steps, with the same tokens left waiting.
  lemma LoadedIsSafe(s: F.Stmt, q: seq<Var>, u: Setup)
    requires Loaded(s, q, u) && forall n: nat :: FreshRun(u, n)
    ensures M.SafeFrom(u.Machine(), M.Start(u.Machine()))
    ensures forall t, k: nat, t', n: nat :: Reaches(u, t, k) && M.Quiet(t) && Reaches(u, t', n) && M.Quiet(t') ==> t == t' && k == n
  {
    hide Loaded, FreshRun, Sound, M.SafeFrom, M.Quiet, M.Steps;
    LoadedSound(s, q, u);
    AlwaysSafe(u);
    var m := u.Machine();
    forall t, k: nat, t', n: nat | Reaches(u, t, k) && M.Quiet(t) && Reaches(u, t', n) && M.Quiet(t')
      ensures t == t' && k == n
    {
      M.ScheduleDoesNotMatter(m, M.Start(m), t, k, t', n);
    }
  }
}
