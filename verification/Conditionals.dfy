// The tokens around the two branches of a conditional.
module Conditionals {
  import opened Words
  import F = Force
  import L = Lenient
  import opened Tass
  import opened Rules
  import opened Codegen
  import opened Names
  import opened Simulation

  // The environment a branch sees: that of the conditional's variables if the test selects it.
  ghost function BranchEnv(env: F.Env, u: set<Var>, taken: bool): F.Env {
    if taken then L.Restrict(env, u) else map[]
  }

  predicate Takes(v: Option<Data>, branch: bool) {
    v.Some? && (v.value != 0) == branch
  }

  // The k-th variable is split: its true name carries it if the test holds, its false name if not.
  lemma SplitVar(P: seq<Line>, T: iset<Token>, full: bool, q: seq<Var>, k: nat, vars: map<Var, Name>, cond: Name,
                 base: nat, t: Tag, env: F.Env, u: set<Var>, v: Option<Data>)
    requires Ok(P, T, full) && k < |q| && (set x | x in q) <= vars.Keys && q[k] in u && q[k] in vars
    requires SplitLines(q, vars, cond, base)[k] in P
    requires At(T, vars[q[k]], t, NumIn(env, q[k]), full) && At(T, cond, t, NumOf(v), full)
    ensures At(T, TrueNames(q, base)[k], t, NumIn(BranchEnv(env, u, Takes(v, true)), q[k]), full)
    ensures At(T, FalseNames(q, base)[k], t, NumIn(BranchEnv(env, u, Takes(v, false)), q[k]), full)
  {
    hide Ok, At;
    var x, tn, fn := q[k], TrueNames(q, base)[k], FalseNames(q, base)[k];
    BranchTrueAt(P, T, full, tn, Some(fn), vars[x], cond, t, NumIn(env, x), NumOf(v));
    BranchFalseAt(P, T, full, tn, fn, vars[x], cond, t, NumIn(env, x), NumOf(v));
  }

  lemma RenamedAt(T: iset<Token>, full: bool, q: seq<Var>, u: set<Var>, vars: map<Var, Name>, names: seq<Name>,
                  t: Tag, env: F.Env)
    requires F.Enumerates(q, u) && u <= vars.Keys && |names| == |q|
    requires forall k :: 0 <= k < |q| ==> At(T, names[k], t, NumIn(env, q[k]), full)
    ensures VarsAt(T, Rename(vars, q, names, |q|), u, t, env, full)
  {
    hide At;
    forall x | x in u
      ensures x in Rename(vars, q, names, |q|)
      ensures At(T, Rename(vars, q, names, |q|)[x], t, NumIn(env, x), full)
    {
      var k := IndexIn(q, u, x);
      RenameOf(vars, q, names, |q|, k);
    }
  }

  // Both branches start with the variables they are entitled to.
  lemma SplitVars(P: seq<Line>, T: iset<Token>, full: bool, q: seq<Var>, u: set<Var>, cond: Name, st: Gen, t: Tag,
                  env: F.Env, v: Option<Data>)
    requires Ok(P, T, full) && F.Enumerates(q, u) && u <= st.vars.Keys
    requires VarsAt(T, st.vars, u, t, env, full) && At(T, cond, t, NumOf(v), full)
    requires (set x | x in q) <= st.vars.Keys
    requires st.lines + SplitLines(q, st.vars, cond, st.num) <= P
    ensures VarsAt(T, Rename(st.vars, q, TrueNames(q, st.num), |q|), u, t, BranchEnv(env, u, Takes(v, true)), full)
    ensures VarsAt(T, Rename(st.vars, q, FalseNames(q, st.num), |q|), u, t, BranchEnv(env, u, Takes(v, false)), full)
  {
    hide Ok, At, SplitLines, TrueNames, FalseNames, BranchEnv;
    var lines := SplitLines(q, st.vars, cond, st.num);
    Covered(q, u, st.vars.Keys);
    forall k | 0 <= k < |q|
      ensures At(T, TrueNames(q, st.num)[k], t, NumIn(BranchEnv(env, u, Takes(v, true)), q[k]), full)
      ensures At(T, FalseNames(q, st.num)[k], t, NumIn(BranchEnv(env, u, Takes(v, false)), q[k]), full)
    {
      assert q[k] in (set x | x in q);
      assert (st.lines + lines)[|st.lines| + k] == lines[k];
      InProgram(lines[k], st.lines + lines, P);
      SplitVar(P, T, full, q, k, st.vars, cond, st.num, t, env, u, v);
    }
    RenamedAt(T, full, q, u, st.vars, TrueNames(q, st.num), t, BranchEnv(env, u, Takes(v, true)));
    RenamedAt(T, full, q, u, st.vars, FalseNames(q, st.num), t, BranchEnv(env, u, Takes(v, false)));
  }

  // The guards of the two branches: literals fire in the branch that is taken.
  lemma SplitGuards(P: seq<Line>, T: iset<Token>, full: bool, cond: Name, one: Name, gt: Name, gf: Name, st: Gen,
                    t: Tag, live: bool, v: Option<Data>)
    requires Ok(P, T, full) && At(T, cond, t, NumOf(v), full)
    requires LiteralsAt(T, st.scope, st.guard, t, live, full)
    requires GenLiteral(1, one, st).lines + [Branch(gt, Some(gf), one, cond)] <= P
    ensures LiteralsAt(T, st.scope, Some(gt), t, live && Takes(v, true), full)
    ensures LiteralsAt(T, st.scope, Some(gf), t, live && Takes(v, false), full)
  {
    var br := Branch(gt, Some(gf), one, cond);
    var w := NumOf(if live then Some(1) else None);
    assert At(T, gt, t, if w.Some? && v.Some? && v.value != 0 then w else None, full)
        && At(T, gf, t, if w.Some? && v.Some? && v.value == 0 then w else None, full) by {
      hide Ok, At, LiteralsAt, GenLiteral;
      LastLine(GenLiteral(1, one, st).lines, br, P);
      LiteralCorrect(P, T, full, 1, one, st, t, live);
      BranchTrueAt(P, T, full, gt, Some(gf), one, cond, t, w, NumOf(v));
      BranchFalseAt(P, T, full, gt, gf, one, cond, t, w, NumOf(v));
    }
    hide Ok, At, GenLiteral;
  }

  // ---- Merging ----

  ghost function Either(a: Option<Word>, b: Option<Word>): Option<Word> {
    if a.Some? then a else b
  }

  // If one name carries both, it carries what either carries.
  lemma SameName(T: iset<Token>, n: Name, t: Tag, a: Option<Word>, b: Option<Word>, full: bool)
    requires At(T, n, t, a, full) && At(T, n, t, b, full) && (a.None? || b.None?)
    ensures At(T, n, t, Either(a, b), full)
  {
  }

  lemma {:induction false} MergedAt(P: seq<Line>, T: iset<Token>, full: bool, q: seq<Var>,
                                    tv: map<Var, Name>, fv: map<Var, Name>, st: Gen, k: nat, j: nat, t: Tag,
                                    a: Option<Word>, b: Option<Word>)
    requires Ok(P, T, full) && F.Distinct(q) && j < k <= |q|
    requires forall x :: x in q ==> x in tv && x in fv && x in st.vars
    requires MergeVars(q, tv, fv, st, k).lines <= P
    requires At(T, tv[q[j]], t, a, full) && At(T, fv[q[j]], t, b, full) && (a.None? || b.None?)
    requires st.vars == fv
    ensures At(T, MergeVars(q, tv, fv, st, k).vars[q[j]], t, Either(a, b), full)
    decreases k
  {
    hide Ok, At;
    var p := MergeVars(q, tv, fv, st, k - 1);
    var x := q[k - 1];
    var phi := Name("_" + x + "_phi%", p.num + 1);
    if j < k - 1 {
      if tv[x] != fv[x] { LastLine(p.lines, Merge(phi, tv[x], fv[x]), P); }
      MergedAt(P, T, full, q, tv, fv, st, k - 1, j, t, a, b);
    } else if tv[x] == fv[x] {
      SameName(T, tv[x], t, a, b, full);
      MergeKeeps(q, tv, fv, st, k - 1, x);
    } else {
      LastLine(p.lines, Merge(phi, tv[x], fv[x]), P);
      MergeAt(P, T, full, phi, tv[x], fv[x], t, a, b);
    }
  }

  lemma LiteralKeeps(n: Data, out: Name, st: Gen)
    ensures var r := GenLiteral(n, out, st);
      r.vars == st.vars && r.scope == st.scope && st.lines <= r.lines
  {
  }

  // The state behind the split variables, and the one behind the literal 1.
  lemma SplitShape(q: seq<Var>, cond: Name, st: Gen) returns (st1: Gen, st2: Gen)
    requires (set x | x in q) <= st.vars.Keys
    ensures st1.lines == st.lines + SplitLines(q, st.vars, cond, st.num) && st1.scope == st.scope && st1.guard == st.guard
    ensures st1.lines <= st2.lines && st2 == GenLiteral(1, Name("%_1", st1.num), st1)
    ensures var r := Split(q, cond, st);
      && r.vars == Rename(st.vars, q, TrueNames(q, st.num), |q|) && r.scope == st.scope
      && r.guard == Some(Name("%_true", st2.num + 1)) && FalseGuard(r) == Name("%_false", st2.num + 2)
      && r.lines == st2.lines + [Branch(Name("%_true", st2.num + 1), Some(Name("%_false", st2.num + 2)), Name("%_1", st1.num), cond)]
  {
    hide Rename, TrueNames, SplitLines, GenLiteral;
    st1 := st.(lines := st.lines + SplitLines(q, st.vars, cond, st.num),
               vars := Rename(st.vars, q, TrueNames(q, st.num), |q|), num := st.num + 2 * |q| + 1);
    st2 := GenLiteral(1, Name("%_1", st1.num), st1);
    LiteralKeeps(1, Name("%_1", st1.num), st1);
  }

  // Both branches start with what they are entitled to.
  lemma SplitCorrect(P: seq<Line>, T: iset<Token>, full: bool, q: seq<Var>, u: set<Var>, cond: Name, st: Gen, t: Tag,
                     env: F.Env, live: bool, v: Option<Data>)
    requires Ok(P, T, full) && F.Enumerates(q, u) && u <= st.vars.Keys && (set x | x in q) <= st.vars.Keys
    requires VarsAt(T, st.vars, u, t, env, full) && At(T, cond, t, NumOf(v), full)
    requires LiteralsAt(T, st.scope, st.guard, t, live, full)
    requires Split(q, cond, st).lines <= P
    ensures var thn := Split(q, cond, st);
      && VarsAt(T, thn.vars, u, t, BranchEnv(env, u, Takes(v, true)), full)
      && LiteralsAt(T, thn.scope, thn.guard, t, live && Takes(v, true), full)
      && VarsAt(T, Rename(st.vars, q, FalseNames(q, st.num), |q|), u, t, BranchEnv(env, u, Takes(v, false)), full)
      && LiteralsAt(T, st.scope, Some(FalseGuard(thn)), t, live && Takes(v, false), full)
  {
    hide Ok, At, VarsAt, LiteralsAt, SplitLines, Rename, TrueNames, FalseNames, F.Enumerates, BranchEnv, Split, GenLiteral;
    var st1, st2 := SplitShape(q, cond, st);
    LastLine(st2.lines, Branch(Name("%_true", st2.num + 1), Some(Name("%_false", st2.num + 2)), Name("%_1", st1.num), cond), P);
    Prefixes(st1.lines, st2.lines, P);
    SplitVars(P, T, full, q, u, cond, st, t, env, v);
    SplitGuards(P, T, full, cond, Name("%_1", st1.num), Name("%_true", st2.num + 1), Name("%_false", st2.num + 2), st1, t, live, v);
  }

  // The lenient meaning of a conditional, variable by variable, from the runs of both branches.
  lemma IfRun(s: F.Stmt, env: F.Env, live: bool, x: Var)
    requires s.If?
    ensures var u, v := F.BranchVars(s), L.Value(s.cond, env, live);
      var a := L.Run(s.thn, BranchEnv(env, u, Takes(v, true)), live && Takes(v, true));
      var b := L.Run(s.els, BranchEnv(env, u, Takes(v, false)), live && Takes(v, false));
      if x in u then
        && (NumIn(a, x).None? || NumIn(b, x).None?)
        && NumIn(L.Run(s, env, live), x) == Either(NumIn(a, x), NumIn(b, x))
      else NumIn(L.Run(s, env, live), x) == NumIn(env, x)
  {
    hide L.Value;
    L.NothingRuns(s.thn);
    L.NothingRuns(s.els);
  }
}
