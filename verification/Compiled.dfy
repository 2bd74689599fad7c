// What holds of whole compiled programs.
module Compiled {
  import opened Words
  import F = Force
  import L = Lenient
  import opened Tass
  import opened Rules
  import opened Codegen
  import opened Simulation
  import opened Correctness
  import opened Numbering
  import opened Uniqueness

  // Whatever set of tokens the lines support, every line is good.
  ghost predicate Regular(P: seq<Line>) {
    SingleDefs(P) && forall T: iset<Token>, l :: Supported(P, T) && l in P ==> Good(T, l)
  }

  lemma StartEverywhere(T: iset<Token>)
    ensures Everywhere(T, START, {})
  {
    forall t
      ensures HasContext(T, START, {}, t)
    {
      assert ContextAt(T, START.vars, START.scope, START.guard, {}, t, map[], t == NO_TAG);
    }
  }

  // The generator's state after the whole program.
  function Final(s: F.Stmt): (st: Gen)
    requires F.Scoped(s, {})
    ensures st.vars.Keys == F.After(s, {})
  {
    assert START.vars.Keys == {};
    GenStmt(s, START)
  }

  lemma ProgramIs(s: F.Stmt, q: seq<Var>)
    requires F.Scoped(s, {}) && forall x :: x in q ==> x in F.After(s, {})
    ensures START.vars.Keys == {} && F.Scoped(s, START.vars.Keys)
    ensures var st := Final(s);
      && st == GenStmt(s, START) && (forall x :: x in q ==> x in st.vars)
      && Compile(s, q) == st.lines + PrintLines(st.vars, q) && st.lines <= Compile(s, q)
  {
    hide GenStmt;
    assert START.vars.Keys == {};
  }

  lemma LinesGood(P: seq<Line>, T: iset<Token>, s: F.Stmt, q: seq<Var>, l: Line)
    requires F.Scoped(s, {}) && (forall x :: x in q ==> x in F.After(s, {})) && P == Compile(s, q)
    requires Ok(P, T, false) && l in P
    ensures Good(T, l)
  {
    hide Ok, Good, Everywhere, GenStmt, Final, Compile, F.Scoped;
    ProgramIs(s, q);
    StartEverywhere(T);
    var st := Final(s);
    var k :| 0 <= k < |P| && P[k] == l;
    if k < |st.lines| {
      StmtGood(P, T, s, START, {});
    } else {
      var x := q[k - |st.lines|];
      StmtEverywhere(P, T, s, START, {});
      VarSingle(T, st, F.After(s, {}), x);
      PlainGood(T, l);
    }
  }

  // A compiled program is regular.
  lemma CompiledRegular(s: F.Stmt, q: seq<Var>)
    requires F.Scoped(s, {}) && forall x :: x in q ==> x in F.After(s, {})
    ensures Regular(Compile(s, q))
  {
    hide Good, Compile, Supported, F.Scoped;
    var P := Compile(s, q);
    CompiledSingleDefs(s, q);
    forall T: iset<Token>, l | Supported(P, T) && l in P
      ensures Good(T, l)
    {
      LinesGood(P, T, s, q, l);
    }
  }

  // Under the first tag the variables carry what the program computes, under any other nothing.
  lemma CompiledValues(P: seq<Line>, T: iset<Token>, full: bool, s: F.Stmt, q: seq<Var>)
    requires F.Scoped(s, {}) && (forall x :: x in q ==> x in F.After(s, {})) && P == Compile(s, q)
    requires Ok(P, T, full)
    ensures VarsAt(T, Final(s).vars, F.After(s, {}), NO_TAG, L.Run(s, map[], true), full)
    ensures forall t :: t != NO_TAG ==> VarsAt(T, Final(s).vars, F.After(s, {}), t, map[], full)
  {
    hide Ok, At, VarsAt, GenStmt, Final, Compile, L.Run, F.Scoped;
    ProgramIs(s, q);
    StartAt(T, full, NO_TAG);
    StmtCorrect(P, T, full, s, START, {}, NO_TAG, map[], true);
    forall t | t != NO_TAG
      ensures VarsAt(T, Final(s).vars, F.After(s, {}), t, map[], full)
    {
      StartAt(T, full, t);
      StmtCorrect(P, T, full, s, START, {}, t, map[], false);
      L.NothingRuns(s);
    }
  }

  lemma StartAt(T: iset<Token>, full: bool, t: Tag)
    ensures VarsAt(T, START.vars, {}, t, map[], full)
    ensures LiteralsAt(T, START.scope, START.guard, t, t == NO_TAG, full)
  {
  }
}
