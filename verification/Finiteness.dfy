// A compiled program makes finitely many tokens exactly if its source terminates.
module Finiteness {
  import opened Words
  import F = Force
  import L = Lenient
  import opened Tass
  import opened Rules
  import opened Codegen
  import opened Simulation
  import opened Conditionals
  import opened Names
  import opened Loops
  import opened Correctness
  import opened Numbering
  import opened Uniqueness
  import opened Compiled
  import opened Halting
  import opened Derived

  // ---- Few tokens ----

  ghost predicate Holds(T: iset<Token>, n: Name, D: set<Token>) {
    forall tok :: tok in T && tok.name == n ==> tok in D
  }

  // Finitely many tokens of T are on the name n.
  ghost predicate FewOf(T: iset<Token>, n: Name) {
    exists D: set<Token> :: Holds(T, n, D)
  }

  ghost function Few(T: iset<Token>): iset<Name> { iset n | FewOf(T, n) }

  ghost predicate HoldsAll(T: iset<Token>, ns: set<Name>, D: set<Token>) {
    forall tok :: tok in T && tok.name in ns ==> tok in D
  }

  lemma {:induction false} FewTogether(T: iset<Token>, ns: set<Name>) returns (D: set<Token>)
    requires forall n :: n in ns ==> n in Few(T)
    ensures HoldsAll(T, ns, D)
    decreases ns
  {
    if ns == {} {
      D := {};
    } else {
      var n :| n in ns;
      assert FewOf(T, n);
      var one: set<Token> :| Holds(T, n, one);
      var rest := FewTogether(T, ns - {n});
      D := one + rest;
    }
  }

  // What a line can make of the tokens of D.
  ghost function MadeOf(l: Line, D: set<Token>): set<Token> {
    (if Matched(l, Nothing) then Emit(l, Nothing) else {})
    + (set x, tok | x in D && Matched(l, One(x)) && tok in Emit(l, One(x)) :: tok)
    + (set x, y, tok | x in D && y in D && Matched(l, Two(x, y)) && tok in Emit(l, Two(x, y)) :: tok)
  }

  lemma MatchedReads(l: Line, ins: Inputs)
    requires Matched(l, ins)
    ensures (ins.One? || ins.Two? ==> ins.x.name in Ins(l)) && (ins.Two? ==> ins.y.name in Ins(l))
  {
  }

  lemma FewHanded(P: seq<Line>, T: iset<Token>, l: Line)
    requires SingleDefs(P) && Supported(P, T) && l in P
    ensures Hands(Few(T), l)
  {
    hide Matched, Emit, Ins, Outs, SingleDefs, Supported;
    if forall n :: n in Ins(l) ==> n in Few(T) {
      var D0 := FewTogether(T, Ins(l));
      var D := MadeOf(l, D0);
      forall n | n in Outs(l)
        ensures n in Few(T)
      {
        forall tok | tok in T && tok.name == n
          ensures tok in D
        {
          var ins := From(P, T, l, tok);
          MatchedReads(l, ins);
        }
        assert Holds(T, n, D);
      }
    }
  }

  lemma FewHandsOn(P: seq<Line>, T: iset<Token>)
    requires SingleDefs(P) && Supported(P, T)
    ensures HandsOn(P, Few(T))
  {
    hide Hands, SingleDefs, Supported;
    forall l | l in P ensures Hands(Few(T), l) { FewHanded(P, T, l); }
  }

  // ---- Contexts in which a statement halts ----

  ghost predicate HaltsAt(T: iset<Token>, s: F.Stmt, st: Gen, u: set<Var>, t: Tag) {
    exists env, live :: ContextAt(T, st.vars, st.scope, st.guard, u, t, env, live) && Halts(s, env, live)
  }

  // Whatever the tag: the statement halts on the variables that have tokens under it.
  ghost predicate HaltsEverywhere(T: iset<Token>, s: F.Stmt, st: Gen, u: set<Var>) {
    forall t :: HaltsAt(T, s, st, u, t)
  }

  lemma HaltingEverywhere(T: iset<Token>, s: F.Stmt, st: Gen, u: set<Var>)
    requires HaltsEverywhere(T, s, st, u)
    ensures Everywhere(T, st, u)
  {
    hide Halts, ContextAt;
    forall t ensures HasContext(T, st, u, t) { assert HaltsAt(T, s, st, u, t); }
  }

  lemma HaltContext(T: iset<Token>, s: F.Stmt, st: Gen, u: set<Var>, t: Tag) returns (env: F.Env, live: bool)
    requires HaltsEverywhere(T, s, st, u)
    ensures VarsAt(T, st.vars, u, t, env, false) && LiteralsAt(T, st.scope, st.guard, t, live, false) && Halts(s, env, live)
  {
    hide Halts, VarsAt, LiteralsAt;
    assert HaltsAt(T, s, st, u, t);
    env, live :| ContextAt(T, st.vars, st.scope, st.guard, u, t, env, live) && Halts(s, env, live);
  }

  lemma HaltsHere(T: iset<Token>, s: F.Stmt, st: Gen, u: set<Var>, t: Tag, env: F.Env, live: bool)
    requires VarsAt(T, st.vars, u, t, env, false) && LiteralsAt(T, st.scope, st.guard, t, live, false) && Halts(s, env, live)
    ensures HaltsAt(T, s, st, u, t)
  {
    hide Halts, VarsAt, LiteralsAt;
    assert ContextAt(T, st.vars, st.scope, st.guard, u, t, env, live);
  }

  lemma SeqHalting(P: seq<Line>, T: iset<Token>, s: F.Stmt, st: Gen, u: set<Var>)
    requires s.Seq? && Ok(P, T, false) && F.Scoped(s, u) && u <= st.vars.Keys && F.Scoped(s, st.vars.Keys)
    requires GenStmt(s.first, st).lines <= P && HaltsEverywhere(T, s, st, u)
    ensures HaltsEverywhere(T, s.first, st, u) && F.Scoped(s.first, st.vars.Keys) && HaltsEverywhere(T, s.rest, GenStmt(s.first, st), F.After(s.first, u))
  {
    hide Ok, HaltsEverywhere, HaltsAt, VarsAt, LiteralsAt, GenStmt, L.Run;
    var mid := GenStmt(s.first, st);
    forall t
      ensures HaltsAt(T, s.first, st, u, t) && HaltsAt(T, s.rest, mid, F.After(s.first, u), t)
    {
      var env, live := HaltContext(T, s, st, u, t);
      HaltsHere(T, s.first, st, u, t, env, live);
      StmtCorrect(P, T, false, s.first, st, u, t, env, live);
      HaltsHere(T, s.rest, mid, F.After(s.first, u), t, L.Run(s.first, env, live), live);
    }
    EveryTag(T, s.first, st, u);
    EveryTag(T, s.rest, mid, F.After(s.first, u));
  }

  lemma EveryTag(T: iset<Token>, s: F.Stmt, st: Gen, u: set<Var>)
    requires forall t :: HaltsAt(T, s, st, u, t)
    ensures HaltsEverywhere(T, s, st, u)
  {
  }

  // Of the two branches one halts, and to the other nothing comes.
  lemma BranchHalts(s: F.Stmt, env: F.Env, live: bool, branch: bool)
    requires s.If? && Halts(s, env, live)
    ensures var v := L.Value(s.cond, env, live);
      Halts(if branch then s.thn else s.els, BranchEnv(env, F.BranchVars(s), Takes(v, branch)), live && Takes(v, branch))
  {
    hide L.Value, L.Restrict;
    NothingHalts(s.thn);
    NothingHalts(s.els);
  }

  lemma BranchHalting(P: seq<Line>, T: iset<Token>, s: F.Stmt, st: Gen, u: set<Var>, t: Tag)
    requires s.If? && Ok(P, T, false) && F.Scoped(s, u) && u <= st.vars.Keys && F.Scoped(s, st.vars.Keys)
    requires GenStmt(s, st).lines <= P && HaltsEverywhere(T, s, st, u)
    ensures HaltsAt(T, s.thn, GenIf(s, st).thn, F.BranchVars(s), t)
    ensures HaltsAt(T, s.els, GenIf(s, st).els, F.BranchVars(s), t)
  {
    hide Ok, At, VarsAt, LiteralsAt, HaltsEverywhere, Halts, HaltsAt, GenExpr, GenIf, GenStmt, Split, Rename, FalseNames, L.Value, BranchEnv;
    IfShape(s, st);
    IfPrefixes(P, s, st);
    var p, b := GenIf(s, st), F.BranchVars(s);
    var env, live := HaltContext(T, s, st, u, t);
    IfVars(T, st.vars, u, s, t, env);
    ExprCorrect(P, T, false, s.cond, st, t, env, live);
    var v := L.Value(s.cond, env, live);
    SplitCorrect(P, T, false, s.order, b, p.cond, p.test, t, env, live, v);
    BranchHalts(s, env, live, true);
    BranchHalts(s, env, live, false);
    HaltsHere(T, s.thn, p.thn, b, t, BranchEnv(env, b, Takes(v, true)), live && Takes(v, true));
    HaltsHere(T, s.els, p.els, b, t, BranchEnv(env, b, Takes(v, false)), live && Takes(v, false));
  }

  lemma IfVars(T: iset<Token>, vars: map<Var, Name>, u: set<Var>, s: F.Stmt, t: Tag, env: F.Env)
    requires s.If? && F.Scoped(s, u) && VarsAt(T, vars, u, t, env, false)
    ensures VarsAt(T, vars, F.UsedExpr(s.cond), t, env, false) && VarsAt(T, vars, F.BranchVars(s), t, env, false)
  {
    hide At;
  }

  lemma BranchesHalting(P: seq<Line>, T: iset<Token>, s: F.Stmt, st: Gen, u: set<Var>)
    requires s.If? && Ok(P, T, false) && F.Scoped(s, u) && u <= st.vars.Keys && F.Scoped(s, st.vars.Keys)
    requires GenStmt(s, st).lines <= P && HaltsEverywhere(T, s, st, u)
    ensures HaltsEverywhere(T, s.thn, GenIf(s, st).thn, F.BranchVars(s)) && HaltsEverywhere(T, s.els, GenIf(s, st).els, F.BranchVars(s))
  {
    hide Ok, HaltsEverywhere, HaltsAt, GenIf, GenStmt, F.Scoped;
    forall t
      ensures HaltsAt(T, s.thn, GenIf(s, st).thn, F.BranchVars(s), t)
      ensures HaltsAt(T, s.els, GenIf(s, st).els, F.BranchVars(s), t)
    {
      BranchHalting(P, T, s, st, u, t);
    }
    EveryTag(T, s.thn, GenIf(s, st).thn, F.BranchVars(s));
    EveryTag(T, s.els, GenIf(s, st).els, F.BranchVars(s));
  }

  // ---- Loops ----

  // What the body of a halting loop starts with lets it halt.
  lemma BodyHalts(s: F.Stmt, env: F.Env, live: bool, i: nat)
    requires s.While? && |s.order| > 0 && Halts(s, env, live)
    ensures var b := BodyEnv(s, env, i); Halts(s.body, b, s.order[0] in b)
  {
    hide L.Turn, L.Test;
    NothingHalts(s.body);
    if i > 0 { assert Passes(s, env, i - 1) ==> Halts(s.body, L.Turn(s, env, i - 1), L.TurnLive(s, L.Turn(s, env, i - 1))); }
  }

  // Under every area the loop is entered with an environment in which it halts.
  lemma HaltingArea(P: seq<Line>, T: iset<Token>, s: F.Stmt, st: Gen, u: set<Var>, a: Area) returns (env: F.Env, live: bool)
    requires s.While? && Ok(P, T, false) && F.Scoped(s, u) && u <= st.vars.Keys && F.Scoped(s, st.vars.Keys)
    requires GenStmt(s, st).lines <= P && HaltsEverywhere(T, s, st, u)
    ensures |s.order| > 0 && LoopOf(s, st).Coded(P) && Enters(T, LoopOf(s, st), a, env, false) && Halts(s, env, live)
  {
    hide Ok, At, LiteralsAt, HaltsEverywhere, Halts, GenWhile, GenStmt, Enters;
    var c := LoopOf(s, st);
    LoopFits(s, st);
    LoopCoded(P, s, st);
    if a.Activation? && a.site == NewTagName(c.n) {
      env, live := HaltContext(T, s, st, u, a.parent);
      EntersInside(P, T, false, c, a.parent, env);
    } else {
      env, live := map[], false;
      NothingHalts(s);
      EntersNowhere(P, T, c, a);
    }
  }

  lemma BodyHaltsAt(P: seq<Line>, T: iset<Token>, s: F.Stmt, st: Gen, u: set<Var>, t: Tag)
    requires s.While? && Ok(P, T, false) && F.Scoped(s, u) && u <= st.vars.Keys && F.Scoped(s, st.vars.Keys)
    requires GenStmt(s, st).lines <= P && HaltsEverywhere(T, s, st, u)
    ensures HaltsAt(T, s.body, GenWhile(s, st).body, F.Used(s), t)
  {
    hide Ok, At, VarsAt, LiteralsAt, HaltsEverywhere, Halts, HaltsAt, GenWhile, GenStmt, Enters, BodyEnv, F.Scoped;
    LoopFits(s, st);
    var env, live := HaltingArea(P, T, s, st, u, t.area);
    assert t == Tag(t.area, t.iter);
    var b := BodyEnv(s, env, t.iter);
    AgainTurn(P, T, false, s, st, t.area, env, t.iter);
    AtBody(P, T, false, s, st, t, b);
    BodyHalts(s, env, live, t.iter);
    HaltsHere(T, s.body, GenWhile(s, st).body, F.Used(s), t, b, s.order[0] in b);
  }

  lemma BodyHalting(P: seq<Line>, T: iset<Token>, s: F.Stmt, st: Gen, u: set<Var>)
    requires s.While? && Ok(P, T, false) && F.Scoped(s, u) && u <= st.vars.Keys && F.Scoped(s, st.vars.Keys)
    requires GenStmt(s, st).lines <= P && HaltsEverywhere(T, s, st, u)
    ensures HaltsEverywhere(T, s.body, GenWhile(s, st).body, F.Used(s))
  {
    hide Ok, HaltsEverywhere, HaltsAt, GenWhile, GenStmt, F.Scoped;
    forall t ensures HaltsAt(T, s.body, GenWhile(s, st).body, F.Used(s), t) { BodyHaltsAt(P, T, s, st, u, t); }
    EveryTag(T, s.body, GenWhile(s, st).body, F.Used(s));
  }

  // No token of n under area a comes after turn m.
  ghost predicate LastTurn(T: iset<Token>, n: Name, a: Area, m: nat) {
    forall i: nat, v :: Token(n, Tag(a, i), v) in T ==> i <= m
  }

  lemma AreaEnds(P: seq<Line>, T: iset<Token>, s: F.Stmt, st: Gen, u: set<Var>, k: nat, a: Area) returns (m: nat)
    requires s.While? && Ok(P, T, false) && F.Scoped(s, u) && u <= st.vars.Keys && F.Scoped(s, st.vars.Keys)
    requires GenStmt(s, st).lines <= P && HaltsEverywhere(T, s, st, u) && k < |s.order|
    ensures LastTurn(T, LoopOf(s, st).StartOf(k), a, m)
  {
    hide Ok, HaltsEverywhere, GenWhile, GenStmt, Enters, L.Turn, F.Scoped;
    var env, live := HaltingArea(P, T, s, st, u, a);
    m :| OverAfter(s, env, m);
    forall i: nat, v | Token(LoopOf(s, st).StartOf(k), Tag(a, i), v) in T
      ensures i <= m
    {
      if i > m {
        assert L.Turn(s, env, i) == map[];
        TurnCorrect(P, T, false, s, st, a, env, i);
        assert false;
      }
    }
  }

  // Tokens at the start of a turn belong to an activation that some token has opened.
  lemma Opened(P: seq<Line>, T: iset<Token>, s: F.Stmt, st: Gen, u: set<Var>, k: nat, t: Tag, v: Word) returns (p: Tag, w: Word)
    requires s.While? && Ok(P, T, false) && F.Scoped(s, u) && u <= st.vars.Keys && F.Scoped(s, st.vars.Keys)
    requires GenStmt(s, st).lines <= P && HaltsEverywhere(T, s, st, u) && k < |s.order| && Token(LoopOf(s, st).StartOf(k), t, v) in T
    ensures s.order[0] in st.vars && t.area == Inside(LoopOf(s, st), p) && Token(st.vars[s.order[0]], p, w) in T
  {
    hide Ok, At, LiteralsAt, HaltsEverywhere, Halts, GenWhile, GenStmt, Enters, L.Turn, F.Scoped;
    var c := LoopOf(s, st);
    LoopFits(s, st);
    LoopCoded(P, s, st);
    if t.area.Activation? && t.area.site == NewTagName(c.n) {
      p := t.area.parent;
      if x :| Token(c.vars[c.q[0]], p, x) in T {
        w := x;
      } else {
        var env, live := HaltContext(T, s, st, u, p);
        ClosedArea(P, T, s, st, u, k, t, env);
        NoToken(T, c.StartOf(k), t, v);
        assert false;
      }
    } else {
      EntersNowhere(P, T, c, t.area);
      TurnOfNothing(P, T, s, st, k, t);
      NoToken(T, c.StartOf(k), t, v);
      assert false;
    }
  }

  lemma NoToken(T: iset<Token>, n: Name, t: Tag, v: Word)
    requires At(T, n, t, None, false)
    ensures Token(n, t, v) !in T
  {
  }

  lemma TurnOfNothing(P: seq<Line>, T: iset<Token>, s: F.Stmt, st: Gen, k: nat, t: Tag)
    requires s.While? && Ok(P, T, false) && F.Scoped(s, st.vars.Keys) && GenStmt(s, st).lines <= P && k < |s.order|
    requires LoopOf(s, st).Coded(P) && Enters(T, LoopOf(s, st), t.area, map[], false)
    ensures At(T, LoopOf(s, st).StartOf(k), t, None, false)
  {
    hide Ok, At, GenWhile, GenStmt, Enters, L.Turn, F.Scoped;
    assert t == Tag(t.area, t.iter);
    TurnCorrect(P, T, false, s, st, t.area, map[], t.iter);
    L.NeverStarts(s, t.iter);
  }

  // An activation that nothing opens stays empty.
  lemma ClosedArea(P: seq<Line>, T: iset<Token>, s: F.Stmt, st: Gen, u: set<Var>, k: nat, t: Tag, env: F.Env)
    requires s.While? && Ok(P, T, false) && F.Scoped(s, u) && u <= st.vars.Keys && F.Scoped(s, st.vars.Keys)
    requires GenStmt(s, st).lines <= P && k < |s.order| && LoopOf(s, st).Coded(P)
    requires t.area.Activation? && t.area.site == NewTagName(LoopOf(s, st).n) && VarsAt(T, st.vars, u, t.area.parent, env, false)
    requires s.order[0] in st.vars && forall w :: Token(st.vars[s.order[0]], t.area.parent, w) !in T
    ensures At(T, LoopOf(s, st).StartOf(k), t, None, false)
  {
    hide Ok, GenWhile, GenStmt, Enters, L.Turn, F.Scoped;
    var c, p, less := LoopOf(s, st), t.area.parent, env - {s.order[0]};
    LoopFits(s, st);
    EnumeratesUsed(s, st);
    forall j: nat | j < |c.q|
      ensures At(T, c.vars[c.q[j]], p, NumIn(less, c.q[j]), false)
    {
      UsedIn(s, u, j);
      if j > 0 { assert c.q[0] != c.q[j]; }
    }
    EntersInside(P, T, false, c, p, less);
    assert t == Tag(t.area, t.iter);
    TurnCorrect(P, T, false, s, st, t.area, less, t.iter);
    NotEntered(s, less, t.iter);
  }

  lemma UsedIn(s: F.Stmt, u: set<Var>, j: nat)
    requires s.While? && F.Scoped(s, u) && j < |s.order|
    ensures s.order[j] in u
  {
    assert s.order[j] in (set x | x in s.order);
  }

  // One bound for finitely many activations
  lemma {:induction false} LongestTurn(P: seq<Line>, T: iset<Token>, s: F.Stmt, st: Gen, u: set<Var>, k: nat, X: set<Tag>) returns (m: nat)
    requires s.While? && Ok(P, T, false) && F.Scoped(s, u) && u <= st.vars.Keys && F.Scoped(s, st.vars.Keys)
    requires GenStmt(s, st).lines <= P && HaltsEverywhere(T, s, st, u) && k < |s.order|
    ensures forall t :: t in X ==> LastTurn(T, LoopOf(s, st).StartOf(k), Inside(LoopOf(s, st), t), m)
    decreases X
  {
    hide Ok, HaltsEverywhere, GenStmt, GenWhile, F.Scoped;
    if X == {} {
      m := 0;
    } else {
      var t :| t in X;
      var c := LoopOf(s, st);
      var one := AreaEnds(P, T, s, st, u, k, Inside(c, t));
      var rest := LongestTurn(P, T, s, st, u, k, X - {t});
      m := if one < rest then rest else one;
      forall t' | t' in X ensures LastTurn(T, c.StartOf(k), Inside(c, t'), m) { if t' != t { assert t' in X - {t}; } }
    }
  }

  // The token of n under t, if there is one.
  ghost function Pick(T: iset<Token>, n: Name, t: Tag): Token {
    if v :| Token(n, t, v) in T then Token(n, t, v) else Token(n, t, Num(0))
  }

  lemma PickIs(T: iset<Token>, tok: Token)
    requires tok in T && SingleValued(T, tok.name)
    ensures Pick(T, tok.name, tok.tag) == tok
  {
    assert tok == Token(tok.name, tok.tag, tok.word);
  }

  lemma StartsFew(P: seq<Line>, T: iset<Token>, s: F.Stmt, st: Gen, u: set<Var>, k: nat)
    requires s.While? && Ok(P, T, false) && F.Scoped(s, u) && u <= st.vars.Keys && F.Scoped(s, st.vars.Keys)
    requires GenStmt(s, st).lines <= P && HaltsEverywhere(T, s, st, u) && k < |s.order| && VarsIn(Few(T), st.vars)
    ensures LoopOf(s, st).StartOf(k) in Few(T)
  {
    hide Ok, HaltsEverywhere, GenStmt, GenWhile, F.Scoped, SingleValued, Pick;
    LoopFits(s, st);
    var c := LoopOf(s, st);
    var n := c.StartOf(k);
    HaltingEverywhere(T, s, st, u);
    LoopSingles(P, T, s, st, u, k);
    assert FewOf(T, st.vars[s.order[0]]);
    var D0: set<Token> :| Holds(T, st.vars[s.order[0]], D0);
    var X := set tok | tok in D0 :: tok.tag;
    var m := LongestTurn(P, T, s, st, u, k, X);
    var D := set t, i: nat | t in X && i <= m :: Pick(T, n, Tag(Inside(c, t), i));
    forall tok | tok in T && tok.name == n
      ensures tok in D
    {
      assert tok == Token(n, tok.tag, tok.word) && tok.tag == Tag(tok.tag.area, tok.tag.iter);
      var p, w := Opened(P, T, s, st, u, k, tok.tag, tok.word);
      assert Token(st.vars[s.order[0]], p, w) in D0;
      assert p in X;
      assert LastTurn(T, n, Inside(c, p), m);
      PickIs(T, tok);
    }
    assert Holds(T, n, D);
  }

  // ---- Statements ----

  lemma {:induction false} StmtFew(P: seq<Line>, T: iset<Token>, s: F.Stmt, st: Gen, u: set<Var>)
    requires Ok(P, T, false) && F.Scoped(s, u) && u <= st.vars.Keys && F.Scoped(s, st.vars.Keys)
    requires GenStmt(s, st).lines <= P && HaltsEverywhere(T, s, st, u) && SoFar(Few(T), st)
    ensures SoFar(Few(T), GenStmt(s, st))
    decreases s, 1
  {
    hide Ok, HaltsEverywhere, SoFar, GenExpr, GenIf, GenWhile, F.Enumerates;
    match s
    case Skip =>
    case Seq(a, b) =>
      GenGrows(b, GenStmt(a, st));
      Prefixes(GenStmt(a, st).lines, GenStmt(s, st).lines, P);
      F.ScopedMore(a, u, st.vars.Keys);
      SeqHalting(P, T, s, st, u);
      StmtFew(P, T, a, st, u);
      StmtFew(P, T, b, GenStmt(a, st), F.After(a, u));
    case Assign(_, _) => AssignFew(P, T, s, st);
    case If(_, _, _, _, _) => IfFew(P, T, s, st, u);
    case While(_, _, _) => WhileFew(P, T, s, st, u);
  }

  lemma AssignFew(P: seq<Line>, T: iset<Token>, s: F.Stmt, st: Gen)
    requires s.Assign? && Ok(P, T, false) && F.Scoped(s, st.vars.Keys) && GenStmt(s, st).lines <= P && SoFar(Few(T), st)
    ensures SoFar(Few(T), GenStmt(s, st))
  {
    hide Supported, SingleDefs, HandsOn, SoFar, GenExpr;
    FewHandsOn(P, T);
    var (st1, v) := GenExpr(s.e, st);
    var r := GenStmt(s, st);
    assert r.lines == st1.lines + [Copy(r.vars[s.x], v)];
    LastLine(st1.lines, Copy(r.vars[s.x], v), P);
    ExprIn(P, Few(T), s.e, st);
    AssignIn(P, Few(T), s.x, v, st1, r);
  }

  lemma {:induction false} IfFew(P: seq<Line>, T: iset<Token>, s: F.Stmt, st: Gen, u: set<Var>)
    requires s.If? && Ok(P, T, false) && F.Scoped(s, u) && u <= st.vars.Keys && F.Scoped(s, st.vars.Keys)
    requires GenStmt(s, st).lines <= P && HaltsEverywhere(T, s, st, u) && SoFar(Few(T), st)
    ensures SoFar(Few(T), GenStmt(s, st))
    decreases s, 0
  {
    hide Ok, HaltsEverywhere, HandsOn, SoFar, GenExpr, GenIf, GenStmt, MergeVars, Split, Rename, FalseNames, Few, F.Scoped;
    var p, N := GenIf(s, st), Few(T);
    OkHandsOn(P, T);
    IfShape(s, st);
    IfPrefixes(P, s, st);
    BranchesHalting(P, T, s, st, u);
    ExprIn(P, N, s.cond, st);
    SplitIn(P, N, s.order, p.cond, p.test);
    StmtFew(P, T, s.thn, p.thn, F.BranchVars(s));
    ElseIn(N, s.order, p.test, p.thn, p.thnEnd, p.els);
    StmtFew(P, T, s.els, p.els, F.BranchVars(s));
    SoFarVars(N, p.thnEnd);
    SoFarVars(N, p.elsEnd);
    GuardAgain(N, st, p.elsEnd);
    MergeIn(P, N, s.merge, p.thnEnd.vars, p.elsEnd.vars, p.elsEnd.(guard := st.guard), |s.merge|);
  }

  lemma OkHandsOn(P: seq<Line>, T: iset<Token>)
    requires Ok(P, T, false)
    ensures HandsOn(P, Few(T))
  {
    FewHandsOn(P, T);
  }

  lemma SoFarVars(N: iset<Name>, st: Gen)
    requires SoFar(N, st)
    ensures VarsIn(N, st.vars)
  {
  }

  lemma GuardAgain(N: iset<Name>, outer: Gen, st: Gen)
    requires SoFar(N, outer) && SoFar(N, st)
    ensures SoFar(N, st.(guard := outer.guard))
  {
  }

  lemma LoopStartsFew(P: seq<Line>, T: iset<Token>, s: F.Stmt, st: Gen, u: set<Var>)
    requires s.While? && Ok(P, T, false) && F.Scoped(s, u) && u <= st.vars.Keys && F.Scoped(s, st.vars.Keys)
    requires GenStmt(s, st).lines <= P && HaltsEverywhere(T, s, st, u) && VarsIn(Few(T), st.vars)
    ensures NamesIn(Few(T), LoopNames(s.order, st.num + 3, Codegen.Start))
  {
    hide Ok, HaltsEverywhere, GenStmt, GenWhile, VarsIn, Few, F.Scoped;
    var names := LoopNames(s.order, st.num + 3, Codegen.Start);
    forall k: nat | k < |s.order|
      ensures names[k] in Few(T)
    {
      StartsFew(P, T, s, st, u, k);
    }
  }

  lemma {:induction false} WhileFew(P: seq<Line>, T: iset<Token>, s: F.Stmt, st: Gen, u: set<Var>)
    requires s.While? && Ok(P, T, false) && F.Scoped(s, u) && u <= st.vars.Keys && F.Scoped(s, st.vars.Keys)
    requires GenStmt(s, st).lines <= P && HaltsEverywhere(T, s, st, u) && SoFar(Few(T), st)
    ensures SoFar(Few(T), GenStmt(s, st))
    decreases s, 0
  {
    hide Ok, HaltsEverywhere, HandsOn, SoFar, GenExpr, GenWhile, GenStmt, Enter, Codegen.Test, Leave, NamesIn, Few, F.Scoped, F.Used, F.UsedExpr;
    var p, N := GenWhile(s, st), Few(T);
    OkHandsOn(P, T);
    WhileShape(s, st);
    WhilePrefixes(P, s, st);
    EnumeratesUsed(s, st);
    BodyHalting(P, T, s, st, u);
    SoFarVars(N, st);
    LoopStartsFew(P, T, s, st, u);
    EnterIn(P, N, s.order, st);
    ExprIn(P, N, s.cond, p.enter);
    TestIn(P, N, s.order, st.num, p.cond, p.test);
    StmtFew(P, T, s.body, p.body, F.Used(s));
    LeaveIn(P, N, s.order, st.num, p.bodyEnd, st);
  }

  // ---- Whole programs ----

  lemma {:induction false} OutsTogether(T: iset<Token>, lines: seq<Line>) returns (D: set<Token>)
    requires AllIn(Few(T), lines)
    ensures forall tok, l :: tok in T && l in lines && tok.name in Outs(l) ==> tok in D
  {
    hide Outs;
    if lines == [] {
      D := {};
    } else {
      assert forall l :: l in lines[1..] ==> l in lines;
      var rest := OutsTogether(T, lines[1..]);
      var one := FewTogether(T, Outs(lines[0]));
      D := rest + one;
      assert forall l :: l in lines ==> l == lines[0] || l in lines[1..];
    }
  }

  lemma StartHalts(s: F.Stmt, T: iset<Token>)
    requires F.Scoped(s, {}) && F.Exec(s, map[]).Some?
    ensures HaltsEverywhere(T, s, START, {})
  {
    hide Halts, F.Exec, F.Scoped;
    HaltsExactly(s, {}, map[], map[]);
    NothingHalts(s);
    forall t
      ensures HaltsAt(T, s, START, {}, t)
    {
      Compiled.StartAt(T, false, t);
      HaltsHere(T, s, START, {}, t, map[], t == NO_TAG);
    }
  }

  lemma StartSoFar(N: iset<Name>)
    ensures SoFar(N, START)
  {
  }

  // A token of T is on a name that some line defines.
  lemma OnDefined(P: seq<Line>, T: iset<Token>, tok: Token) returns (l: Line)
    requires Supported(P, T) && tok in T
    ensures l in P && tok.name in Outs(l)
  {
    hide Emit, Matched, Outs;
    var i: nat :| i < |P| && Produced(P[i], T, tok);
    var ins :| Yields(P[i], ins, T, tok);
    EmitsOuts(P[i], ins, tok);
    l := P[i];
  }

  lemma OutputsDefineNothing(s: F.Stmt, q: seq<Var>, l: Line)
    requires F.Scoped(s, {}) && (forall x :: x in q ==> x in F.After(s, {})) && l in Compile(s, q) && Outs(l) != {}
    ensures l in Final(s).lines
  {
    hide GenStmt, F.Scoped;
    ProgramIs(s, q);
  }

  // If the source terminates, whatever set of tokens the program supports is finite.
  lemma TerminatingFinite(s: F.Stmt, q: seq<Var>, T: iset<Token>) returns (D: set<Token>)
    requires F.Scoped(s, {}) && (forall x :: x in q ==> x in F.After(s, {})) && F.Exec(s, map[]).Some?
    requires Supported(Compile(s, q), T)
    ensures forall tok :: tok in T ==> tok in D
  {
    hide GenStmt, Compile, Final, F.Scoped, F.Exec, Supported, Outs, SoFar, HaltsEverywhere, SingleDefs;
    var P := Compile(s, q);
    ProgramIs(s, q);
    CompiledSingleDefs(s, q);
    StartHalts(s, T);
    StartSoFar(Few(T));
    StmtFew(P, T, s, START, {});
    D := OutsTogether(T, Final(s).lines) by { SoFarLines(Few(T), Final(s)); }
    forall tok | tok in T
      ensures tok in D
    {
      var l := OnDefined(P, T, tok);
      OutputsDefineNothing(s, q, l);
    }
  }

  lemma SoFarLines(N: iset<Name>, st: Gen)
    requires SoFar(N, st)
    ensures AllIn(N, st.lines)
  {
  }

  // ---- ... and only then ----

  ghost predicate NoneAfter(D: set<Token>, m: nat) {
    forall tok :: tok in D ==> tok.tag.iter <= m
  }

  lemma {:induction false} Latest(D: set<Token>) returns (m: nat)
    ensures NoneAfter(D, m)
    decreases D
  {
    if D == {} {
      m := 0;
    } else {
      var tok :| tok in D;
      m := Latest(D - {tok});
      if m < tok.tag.iter { m := tok.tag.iter; }
    }
  }

  ghost predicate Bound(T: iset<Token>, D: set<Token>) {
    forall tok :: tok in T ==> tok in D
  }

  // In a finite set that misses nothing every statement has halted.
  lemma {:induction false} StmtEnds(P: seq<Line>, T: iset<Token>, D: set<Token>, s: F.Stmt, st: Gen, u: set<Var>,
                                    t: Tag, env: F.Env, live: bool)
    requires Ok(P, T, true) && Bound(T, D) && F.Scoped(s, u) && u <= st.vars.Keys && F.Scoped(s, st.vars.Keys)
    requires GenStmt(s, st).lines <= P
    requires VarsAt(T, st.vars, u, t, env, true) && LiteralsAt(T, st.scope, st.guard, t, live, true)
    ensures Halts(s, env, live)
    decreases s, 2
  {
    hide Ok, Bound, At, VarsAt, LiteralsAt, GenExpr, GenIf, GenWhile, L.Run, L.Value, F.Enumerates;
    match s
    case Seq(a, b) =>
      GenGrows(b, GenStmt(a, st));
      Prefixes(GenStmt(a, st).lines, GenStmt(s, st).lines, P);
      F.ScopedMore(a, u, st.vars.Keys);
      StmtEnds(P, T, D, a, st, u, t, env, live);
      StmtCorrect(P, T, true, a, st, u, t, env, live);
      StmtEnds(P, T, D, b, GenStmt(a, st), F.After(a, u), t, L.Run(a, env, live), live);
    case If(_, _, _, _, _) => IfEnds(P, T, D, s, st, u, t, env, live);
    case While(_, _, _) => WhileEnds(P, T, D, s, st, u, t, env, live);
    case _ =>
  }

  lemma {:induction false} IfEnds(P: seq<Line>, T: iset<Token>, D: set<Token>, s: F.Stmt, st: Gen, u: set<Var>,
                                  t: Tag, env: F.Env, live: bool)
    requires s.If? && Ok(P, T, true) && Bound(T, D) && F.Scoped(s, u) && u <= st.vars.Keys && F.Scoped(s, st.vars.Keys)
    requires GenStmt(s, st).lines <= P
    requires VarsAt(T, st.vars, u, t, env, true) && LiteralsAt(T, st.scope, st.guard, t, live, true)
    ensures Halts(s, env, live)
    decreases s, 1
  {
    hide Ok, Bound, At, VarsAt, LiteralsAt, Halts, GenExpr, GenIf, GenStmt, Split, Rename, FalseNames, L.Value, BranchEnv, F.Scoped;
    IfShape(s, st);
    IfPrefixes(P, s, st);
    var p, b, v := GenIf(s, st), F.BranchVars(s), L.Value(s.cond, env, live);
    TestedVars(T, st.vars, u, s, t, env);
    ExprCorrect(P, T, true, s.cond, st, t, env, live);
    SplitCorrect(P, T, true, s.order, b, p.cond, p.test, t, env, live, v);
    StmtEnds(P, T, D, s.thn, p.thn, b, t, BranchEnv(env, b, Takes(v, true)), live && Takes(v, true));
    StmtEnds(P, T, D, s.els, p.els, b, t, BranchEnv(env, b, Takes(v, false)), live && Takes(v, false));
    BothHalt(s, env, live);
  }

  lemma TestedVars(T: iset<Token>, vars: map<Var, Name>, u: set<Var>, s: F.Stmt, t: Tag, env: F.Env)
    requires s.If? && F.Scoped(s, u) && VarsAt(T, vars, u, t, env, true)
    ensures VarsAt(T, vars, F.UsedExpr(s.cond), t, env, true) && VarsAt(T, vars, F.BranchVars(s), t, env, true)
  {
    hide At;
  }

  lemma BothHalt(s: F.Stmt, env: F.Env, live: bool)
    requires s.If?
    requires var v := L.Value(s.cond, env, live);
      && Halts(s.thn, BranchEnv(env, F.BranchVars(s), Takes(v, true)), live && Takes(v, true))
      && Halts(s.els, BranchEnv(env, F.BranchVars(s), Takes(v, false)), live && Takes(v, false))
    ensures Halts(s, env, live)
  {
    hide L.Value, L.Restrict;
  }

  // What is there at the start of a turn are tokens of that turn.
  lemma {:induction false} TurnThere(P: seq<Line>, T: iset<Token>, D: set<Token>, s: F.Stmt, st: Gen, a: Area, env: F.Env, m: nat, i: nat)
    requires s.While? && Ok(P, T, true) && Bound(T, D) && NoneAfter(D, m) && F.Scoped(s, st.vars.Keys) && GenStmt(s, st).lines <= P
    requires |s.order| > 0 && LoopOf(s, st).Coded(P) && Enters(T, LoopOf(s, st), a, env, true) && i > m
    ensures L.Turn(s, env, i) == map[]
  {
    hide Ok, At, Bound, NoneAfter, GenWhile, GenStmt, Enters, L.Turn, F.Scoped;
    TurnCorrect(P, T, true, s, st, a, env, i);
    TurnUses(s, env, i);
    EnumeratesUsed(s, st);
    forall x | x in L.Turn(s, env, i)
      ensures false
    {
      var k := IndexIn(s.order, F.Used(s), x);
      OnTime(T, D, m, LoopOf(s, st).StartOf(k), Tag(a, i), Num(L.Turn(s, env, i)[x]));
    }
  }

  lemma OnTime(T: iset<Token>, D: set<Token>, m: nat, n: Name, t: Tag, w: Word)
    requires At(T, n, t, Some(w), true) && Bound(T, D) && NoneAfter(D, m)
    ensures t.iter <= m
  {
    assert Token(n, t, w) in D;
  }

  lemma TurnUses(s: F.Stmt, env: F.Env, i: nat)
    requires s.While? && |s.order| > 0
    ensures L.Turn(s, env, i).Keys <= F.Used(s)
  {
    hide L.Run, L.Test;
  }

  lemma {:induction false} WhileEnds(P: seq<Line>, T: iset<Token>, D: set<Token>, s: F.Stmt, st: Gen, u: set<Var>,
                                     t: Tag, env: F.Env, live: bool)
    requires s.While? && Ok(P, T, true) && Bound(T, D) && F.Scoped(s, u) && u <= st.vars.Keys && F.Scoped(s, st.vars.Keys)
    requires GenStmt(s, st).lines <= P
    requires VarsAt(T, st.vars, u, t, env, true) && LiteralsAt(T, st.scope, st.guard, t, live, true)
    ensures Halts(s, env, live)
    decreases s, 1
  {
    hide Ok, Bound, NoneAfter, At, VarsAt, LiteralsAt, GenWhile, GenStmt, Enters, L.Turn, L.Test, L.TurnLive, Passes, F.Scoped, F.Used;
    var c, a := LoopOf(s, st), Inside(LoopOf(s, st), t);
    LoopFits(s, st);
    LoopCoded(P, s, st);
    LoopVarsAt(T, s, st, u, t, env);
    EntersInside(P, T, true, c, t, env);
    var m := Latest(D);
    forall i: nat | i > m ensures L.Turn(s, env, i) == map[] { TurnThere(P, T, D, s, st, a, env, m, i); }
    assert OverAfter(s, env, m);
    forall i: nat | Passes(s, env, i)
      ensures Halts(s.body, L.Turn(s, env, i), L.TurnLive(s, L.Turn(s, env, i)))
    {
      PassEnds(P, T, D, s, st, a, env, i);
    }
  }

  // The body a turn goes through has halted.
  lemma {:induction false} PassEnds(P: seq<Line>, T: iset<Token>, D: set<Token>, s: F.Stmt, st: Gen, a: Area, env: F.Env, i: nat)
    requires s.While? && Ok(P, T, true) && Bound(T, D) && F.Scoped(s, st.vars.Keys) && GenStmt(s, st).lines <= P
    requires |s.order| > 0 && LoopOf(s, st).Coded(P) && Enters(T, LoopOf(s, st), a, env, true) && Passes(s, env, i)
    ensures Halts(s.body, L.Turn(s, env, i), L.TurnLive(s, L.Turn(s, env, i)))
    decreases s, 0
  {
    hide Ok, Bound, At, VarsAt, LiteralsAt, Halts, GenWhile, GenStmt, GenExpr, Enters, L.Turn, L.TurnLive, Passes, BodyEnv, F.Scoped, F.Used, F.UsedExpr;
    EnumeratesUsed(s, st);
    WhileShape(s, st);
    WhilePrefixes(P, s, st);
    LoopFits(s, st);
    AgainTurn(P, T, true, s, st, a, env, i + 1);
    PassedOn(s, env, i);
    AtBody(P, T, true, s, st, Tag(a, i + 1), L.Turn(s, env, i));
    StmtEnds(P, T, D, s.body, GenWhile(s, st).body, F.Used(s), Tag(a, i + 1), L.Turn(s, env, i), L.TurnLive(s, L.Turn(s, env, i)));
  }

  lemma LoopVarsAt(T: iset<Token>, s: F.Stmt, st: Gen, u: set<Var>, t: Tag, env: F.Env)
    requires s.While? && F.Scoped(s, u) && F.Scoped(s, st.vars.Keys) && VarsAt(T, st.vars, u, t, env, true)
    ensures forall j: nat :: j < |s.order| ==> s.order[j] in st.vars && At(T, st.vars[s.order[j]], t, NumIn(env, s.order[j]), true)
  {
    hide At;
    forall j: nat | j < |s.order|
      ensures s.order[j] in st.vars && At(T, st.vars[s.order[j]], t, NumIn(env, s.order[j]), true)
    {
      UsedIn(s, u, j);
    }
  }

  lemma PassedOn(s: F.Stmt, env: F.Env, i: nat)
    requires s.While? && |s.order| > 0 && Passes(s, env, i)
    ensures BodyEnv(s, env, i + 1) == L.Turn(s, env, i) && L.TurnLive(s, L.Turn(s, env, i)) == (s.order[0] in L.Turn(s, env, i))
  {
    hide L.Turn, L.Test;
  }

  // If a set of tokens that misses nothing is finite, the source terminates.
  lemma FiniteTerminates(s: F.Stmt, q: seq<Var>, T: iset<Token>, D: set<Token>)
    requires F.Scoped(s, {}) && (forall x :: x in q ==> x in F.After(s, {})) && Bound(T, D)
    requires Supported(Compile(s, q), T) && Closed(Compile(s, q), T)
    ensures F.Exec(s, map[]).Some?
  {
    hide GenStmt, Compile, Final, Halts, F.Scoped, F.Exec, Supported, Closed, SingleDefs, Bound;
    var P := Compile(s, q);
    ProgramIs(s, q);
    CompiledSingleDefs(s, q);
    Compiled.StartAt(T, true, NO_TAG);
    StmtEnds(P, T, D, s, START, {}, NO_TAG, map[], true);
    HaltsExactly(s, {}, map[], map[]);
  }
}
