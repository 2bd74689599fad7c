// When a statement stops: in terms of the dataflow, every loop that is entered is left again.
module Halting {
  import opened Words
  import opened Force
  import L = Lenient
  import opened Adequacy

  // Every loop the dataflow enters has a last turn, and all its turns stop.
  ghost predicate Halts(s: Stmt, env: Env, live: bool)
    decreases s
  {
    match s
    case Seq(a, b) => Halts(a, env, live) && Halts(b, L.Run(a, env, live), live)
    case If(c, a, b, _, _) =>
      var v := L.Value(c, env, live);
      v.Some? ==> Halts(if v.value != 0 then a else b, L.Restrict(env, BranchVars(s)), live)
    case While(_, body, order) =>
      |order| > 0 ==>
        && (exists n: nat :: OverAfter(s, env, n))
        && forall i: nat :: Passes(s, env, i) ==> Halts(body, L.Turn(s, env, i), L.TurnLive(s, L.Turn(s, env, i)))
    case _ => true
  }

  // No variable is left in any turn after turn n.
  ghost predicate OverAfter(s: Stmt, env: Env, n: nat)
    requires s.While? && |s.order| > 0
  {
    forall i: nat :: i > n ==> L.Turn(s, env, i) == map[]
  }

  // The test of turn i sends the variables into the body.
  ghost predicate Passes(s: Stmt, env: Env, i: nat)
    requires s.While? && |s.order| > 0
  {
    var v := L.Test(s, L.Turn(s, env, i));
    v.Some? && v.value != 0
  }

  lemma NothingPasses(s: Stmt, env: Env, i: nat)
    requires s.While? && |s.order| > 0 && L.Turn(s, env, i) == map[]
    ensures !Passes(s, env, i)
  {
    hide L.Value, L.Turn;
    L.NoValue(s.cond);
  }

  lemma {:induction false} NothingHalts(s: Stmt)
    ensures Halts(s, map[], false)
  {
    hide L.Value, L.Turn, L.Test, Passes;
    match s
    case Seq(a, b) =>
      NothingHalts(a);
      NothingHalts(b);
      L.NothingRuns(a);
    case If(c, _, _, _, _) => L.NoValue(c);
    case While(_, _, order) =>
      if |order| > 0 { NotEnteredHalts(s, map[]) by { forall i: nat { L.NeverStarts(s, i); } } }
    case _ =>
  }

  // A loop without variables stops.
  lemma NotEnteredHalts(s: Stmt, env: Env)
    requires s.While? && |s.order| > 0 && forall i: nat :: L.Turn(s, env, i) == map[]
    ensures OverAfter(s, env, 0) && forall i: nat :: !Passes(s, env, i)
  {
    hide L.Turn, Passes;
    forall i: nat ensures !Passes(s, env, i) { NothingPasses(s, env, i); }
  }

  // ---- Exactly when the source terminates ----

  lemma {:induction false} ExecHalts(s: Stmt, u: set<Var>, source: Env, env: Env)
    requires Scoped(s, u) && Agrees(source, env, u) && Exec(s, source).Some?
    ensures Halts(s, env, true)
    decreases s, 1
  {
    hide Eval, L.Value, L.Run, Enumerates;
    match s
    case Seq(a, b) =>
      ExecHalts(a, u, source, env);
      Adequate(a, u, source, env);
      ExecHalts(b, After(a, u), Exec(a, source).value, L.Run(a, env, true));
    case If(c, a, b, _, _) =>
      ValueAgrees(c, source, env, u);
      ExecHalts(if Eval(c, source) != 0 then a else b, BranchVars(s), source, L.Restrict(env, BranchVars(s)));
    case While(_, _, _) => LoopHalts(s, u, source, env);
    case _ =>
  }

  lemma {:induction false} IterationsBefore(c: Expr, b: Stmt, env: Env, i: nat, j: nat)
    requires Iteration(c, b, env, i).Some? && j <= i
    ensures Iteration(c, b, env, j).Some?
    ensures j < i ==> Exec(b, Iteration(c, b, env, j).value).Some?
    decreases i
  {
    hide Eval, Exec;
    if j < i { IterationsBefore(c, b, env, i - 1, j); }
  }

  lemma {:induction false} LoopHalts(s: Stmt, u: set<Var>, source: Env, env: Env)
    requires s.While? && Scoped(s, u) && Agrees(source, env, u) && Exec(s, source).Some?
    ensures Halts(s, env, true)
    decreases s, 0
  {
    hide Eval, L.Value, L.Turn, L.Test, L.TurnLive, Passes, Iteration, Enumerates, Agrees;
    var n: nat :| LoopEnds(s.cond, s.body, source, n);
    TurnAgrees(s, u, source, env, n);
    assert OverAfter(s, env, n) by { EndsOver(s, env, n); }
    forall i: nat | Passes(s, env, i)
      ensures Halts(s.body, L.Turn(s, env, i), L.TurnLive(s, L.Turn(s, env, i)))
    {
      PassesBefore(s, env, n, i);
      IterationsBefore(s.cond, s.body, source, n, i);
      TurnAgrees(s, u, source, env, i);
      ExecHalts(s.body, Used(s), Iteration(s.cond, s.body, source, i).value, L.Turn(s, env, i));
    }
  }

  // What the source and the dataflow have in common at the start of a turn.
  lemma TurnAgrees(s: Stmt, u: set<Var>, source: Env, env: Env, i: nat)
    requires s.While? && Scoped(s, u) && Agrees(source, env, u) && Iteration(s.cond, s.body, source, i).Some?
    ensures |s.order| > 0 && s.order[0] in L.Turn(s, env, i)
    ensures var now := Iteration(s.cond, s.body, source, i).value;
      && Agrees(now, L.Turn(s, env, i), Used(s)) && L.TurnLive(s, L.Turn(s, env, i))
      && L.Test(s, L.Turn(s, env, i)) == Some(Eval(s.cond, now)) && (Passes(s, env, i) <==> Eval(s.cond, now) != 0)
  {
    hide Eval, L.Value, L.Turn, L.Test, Iteration, Enumerates;
    TurnAdequate(s, u, source, env, i);
    TestAdequate(s, u, Iteration(s.cond, s.body, source, i).value, L.Turn(s, env, i));
  }

  lemma EndsOver(s: Stmt, env: Env, n: nat)
    requires s.While? && |s.order| > 0 && L.Test(s, L.Turn(s, env, n)) == Some(0)
    ensures OverAfter(s, env, n)
  {
    hide L.Turn, L.Test;
    forall i: nat | i > n ensures L.Turn(s, env, i) == map[] { L.NothingAfter(s, env, n, i); }
  }

  lemma PassesBefore(s: Stmt, env: Env, n: nat, i: nat)
    requires s.While? && |s.order| > 0 && L.Test(s, L.Turn(s, env, n)) == Some(0) && Passes(s, env, i)
    ensures i < n
  {
    hide L.Turn, L.Test;
    if i > n {
      L.NothingAfter(s, env, n, i);
      NothingPasses(s, env, i);
    }
  }

  lemma {:induction false} HaltsExec(s: Stmt, u: set<Var>, source: Env, env: Env)
    requires Scoped(s, u) && Agrees(source, env, u) && Halts(s, env, true)
    ensures Exec(s, source).Some?
    decreases s, 2, 0
  {
    hide Eval, L.Value, L.Run, Enumerates;
    match s
    case Seq(a, b) =>
      HaltsExec(a, u, source, env);
      Adequate(a, u, source, env);
      HaltsExec(b, After(a, u), Exec(a, source).value, L.Run(a, env, true));
    case If(c, a, b, _, _) =>
      ValueAgrees(c, source, env, u);
      HaltsExec(if Eval(c, source) != 0 then a else b, BranchVars(s), source, L.Restrict(env, BranchVars(s)));
    case While(_, _, _) => HaltsLoop(s, u, source, env);
    case _ =>
  }

  // A loop that does not stop goes on turn by turn, with all its variables.
  lemma {:induction false} GoesOn(s: Stmt, u: set<Var>, source: Env, env: Env, i: nat)
    requires s.While? && Scoped(s, u) && Agrees(source, env, u) && Halts(s, env, true)
    requires forall j: nat :: !LoopEnds(s.cond, s.body, source, j)
    ensures Iteration(s.cond, s.body, source, i).Some?
    decreases s, 0, i
  {
    hide Eval, L.Value, L.Turn, L.Test, L.TurnLive, Passes, Exec, Agrees, Enumerates;
    if i > 0 {
      GoesOn(s, u, source, env, i - 1);
      assert !LoopEnds(s.cond, s.body, source, i - 1);
      TurnAgrees(s, u, source, env, i - 1);
      HaltsExec(s.body, Used(s), Iteration(s.cond, s.body, source, i - 1).value, L.Turn(s, env, i - 1));
    }
  }

  lemma {:induction false} HaltsLoop(s: Stmt, u: set<Var>, source: Env, env: Env)
    requires s.While? && Scoped(s, u) && Agrees(source, env, u) && Halts(s, env, true)
    ensures Exec(s, source).Some?
    decreases s, 1, 0
  {
    hide Eval, L.Value, L.Turn, L.Test, L.TurnLive, Passes, Iteration, Exec, Agrees, Enumerates;
    if i: nat :| LoopEnds(s.cond, s.body, source, i) {
      EndsAt(s.cond, s.body, s.order, source, i);
    } else {
      var n: nat :| OverAfter(s, env, n);
      assert L.Turn(s, env, n + 1) == map[];
      GoesOn(s, u, source, env, n + 1);
      TurnAgrees(s, u, source, env, n + 1);
      assert false;
    }
  }

  // Where the dataflow starts with the variables of the source, it halts exactly if the source does.
  lemma HaltsExactly(s: Stmt, u: set<Var>, source: Env, env: Env)
    requires Scoped(s, u) && Agrees(source, env, u)
    ensures Halts(s, env, true) <==> Exec(s, source).Some?
  {
    hide Halts, Exec, Agrees, Scoped;
    if Exec(s, source).Some? { ExecHalts(s, u, source, env); }
    if Halts(s, env, true) { HaltsExec(s, u, source, env); }
  }
}
