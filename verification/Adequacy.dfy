// Where the source program terminates, the dataflow computes what it computes; where it does not,
// the dataflow may still deliver what does not depend on the loop.
module Adequacy {
  import opened Words
  import opened Force
  import L = Lenient

  // Every variable of u has a token, with the value it has in the source.
  ghost predicate Agrees(source: Env, env: Env, u: set<Var>) {
    forall x :: x in u ==> x in env && env[x] == Lookup(source, x)
  }

  lemma {:induction false} ValueAgrees(e: Expr, source: Env, env: Env, u: set<Var>)
    requires Agrees(source, env, u) && UsedExpr(e) <= u
    ensures L.Value(e, env, true) == Some(Eval(e, source))
  {
    hide Compute;
    match e
    case Number(_) =>
    case Variable(_) =>
    case Binary(_, l, r) =>
      ValueAgrees(l, source, env, u);
      ValueAgrees(r, source, env, u);
  }

  lemma {:induction false} Adequate(s: Stmt, u: set<Var>, source: Env, env: Env)
    requires Scoped(s, u) && Agrees(source, env, u) && Exec(s, source).Some?
    ensures Agrees(Exec(s, source).value, L.Run(s, env, true), After(s, u))
    decreases s, 2, 0
  {
    hide Eval, L.Value, Enumerates;
    match s
    case Skip =>
    case Seq(a, b) =>
      Adequate(a, u, source, env);
      Adequate(b, After(a, u), Exec(a, source).value, L.Run(a, env, true));
    case Assign(x, e) => ValueAgrees(e, source, env, u);
    case If(_, _, _, _, _) => IfAdequate(s, u, source, env);
    case While(_, _, _) => WhileAdequate(s, u, source, env);
  }

  lemma {:induction false} IfAdequate(s: Stmt, u: set<Var>, source: Env, env: Env)
    requires s.If? && Scoped(s, u) && Agrees(source, env, u) && Exec(s, source).Some?
    ensures Agrees(Exec(s, source).value, L.Run(s, env, true), u)
    decreases s, 1, 0
  {
    hide Eval, L.Value, Enumerates;
    var b, taken := BranchVars(s), if Eval(s.cond, source) != 0 then s.thn else s.els;
    ValueAgrees(s.cond, source, env, u);
    Adequate(taken, b, source, L.Restrict(env, b));
    AfterUsed(taken, b);
    ExecFrame(taken, source);
  }

  lemma {:induction false} TurnAdequate(s: Stmt, u: set<Var>, source: Env, env: Env, i: nat)
    requires s.While? && Scoped(s, u) && Agrees(source, env, u) && Iteration(s.cond, s.body, source, i).Some?
    ensures Agrees(Iteration(s.cond, s.body, source, i).value, L.Turn(s, env, i), Used(s))
    decreases s, 0, i
  {
    hide Eval, L.Value, Exec, L.Run;
    assert s.order[0] in (set x | x in s.order);
    if i > 0 {
      var before, turn := Iteration(s.cond, s.body, source, i - 1).value, L.Turn(s, env, i - 1);
      TurnAdequate(s, u, source, env, i - 1);
      TestAdequate(s, u, before, turn);
      Adequate(s.body, Used(s), before, turn);
      AfterUsed(s.body, Used(s));
    }
  }

  lemma TestAdequate(s: Stmt, u: set<Var>, source: Env, turn: Env)
    requires s.While? && Scoped(s, u) && Agrees(source, turn, Used(s))
    ensures |s.order| > 0 && s.order[0] in Used(s)
    ensures L.TurnLive(s, turn) && L.Test(s, turn) == Some(Eval(s.cond, source))
  {
    hide Eval, L.Value;
    assert s.order[0] in (set x | x in s.order);
    ValueAgrees(s.cond, source, turn, Used(s));
  }

  lemma {:induction false} WhileAdequate(s: Stmt, u: set<Var>, source: Env, env: Env)
    requires s.While? && Scoped(s, u) && Agrees(source, env, u) && Exec(s, source).Some?
    ensures Agrees(Exec(s, source).value, L.Run(s, env, true), u)
    decreases s, 1, 0
  {
    hide Eval, L.Value, L.Turn, L.Test, Enumerates, Iteration;
    var i: nat :| LoopEnds(s.cond, s.body, source, i);
    TurnAdequate(s, u, source, env, i);
    TestAdequate(s, u, Iteration(s.cond, s.body, source, i).value, L.Turn(s, env, i));
    EndsAt(s.cond, s.body, s.order, source, i);
    L.EndsAt(s, env, i);
    ExecFrame(s, source);
  }

  // ---- Loops that do not stop ----

  ghost predicate Stops(s: Stmt) {
    forall env :: Exec(s, env).Some?
  }

  predicate LoopFree(s: Stmt) {
    match s
    case Seq(a, b) => LoopFree(a) && LoopFree(b)
    case If(_, a, b, _, _) => LoopFree(a) && LoopFree(b)
    case While(_, _, _) => false
    case _ => true
  }

  lemma {:induction false} LoopFreeStops(s: Stmt)
    requires LoopFree(s)
    ensures Stops(s)
  {
    hide Eval;
    match s
    case Seq(a, b) =>
      LoopFreeStops(a);
      LoopFreeStops(b);
      forall env ensures Exec(s, env).Some? { assert Exec(a, env).Some?; }
    case If(_, a, b, _, _) =>
      LoopFreeStops(a);
      LoopFreeStops(b);
      forall env ensures Exec(s, env).Some? { assert Exec(a, env).Some? && Exec(b, env).Some?; }
    case _ =>
  }

  // Every turn the source loop begins comes to its end.
  ghost predicate TurnsStop(s: Stmt, source: Env)
    requires s.While?
  {
    forall i: nat :: Begins(s, source, i) ==> Exec(s.body, Iteration(s.cond, s.body, source, i).value).Some?
  }

  ghost predicate Begins(s: Stmt, source: Env, i: nat)
    requires s.While?
  {
    Iteration(s.cond, s.body, source, i).Some? && Eval(s.cond, Iteration(s.cond, s.body, source, i).value) != 0
  }

  lemma {:induction false} AlwaysTurns(s: Stmt, source: Env, i: nat)
    requires s.While? && TurnsStop(s, source) && Exec(s, source).None?
    ensures Iteration(s.cond, s.body, source, i).Some?
    ensures Eval(s.cond, Iteration(s.cond, s.body, source, i).value) != 0
    decreases i
  {
    hide Eval;
    if i > 0 {
      AlwaysTurns(s, source, i - 1);
      assert Begins(s, source, i - 1);
    }
    assert !LoopEnds(s.cond, s.body, source, i);
  }

  // A loop all of whose turns stop delivers all its variables if the source loop terminates, and none
  // of them if it does not.
  lemma LoopDelivers(s: Stmt, u: set<Var>, source: Env, env: Env, x: Var)
    requires s.While? && Scoped(s, u) && Agrees(source, env, u) && TurnsStop(s, source) && x in Used(s)
    ensures x in L.Run(s, env, true) <==> Exec(s, source).Some?
    ensures Exec(s, source).Some? ==> L.Run(s, env, true)[x] == Lookup(Exec(s, source).value, x)
  {
    hide Eval, L.Value, L.Turn, L.Test, Iteration, TurnsStop;
    if Exec(s, source).Some? {
      WhileAdequate(s, u, source, env);
    } else {
      forall i: nat
        ensures !L.Ends(s, env, i)
      {
        AlwaysTurns(s, source, i);
        TurnAdequate(s, u, source, env, i);
        TestAdequate(s, u, Iteration(s.cond, s.body, source, i).value, L.Turn(s, env, i));
      }
    }
  }

  // What does not depend on a loop that runs for ever is delivered all the same:
  // x = 1; while (x) { x = x; } y = 5;
  const FOREVER: Stmt := While(Variable("x"), Assign("x", Variable("x")), ["x"])
  const STUCK: Stmt := Seq(Seq(Assign("x", Number(1)), FOREVER), Assign("y", Number(5)))

  lemma {:induction false} ForeverTurns(env: Env, i: nat)
    requires env == map["x" := 1]
    ensures Iteration(Variable("x"), Assign("x", Variable("x")), env, i) == Some(env)
    decreases i
  {
    if i > 0 {
      ForeverTurns(env, i - 1);
      assert env["x" := 1] == env;
    }
  }

  lemma StuckScoped()
    ensures Scoped(STUCK, {})
  {
    assert Used(FOREVER) == {"x"};
    assert (set x | x in ["x"]) == {"x"};
    assert Scoped(FOREVER, {"x"});
  }

  lemma ForeverRuns(one: Env)
    requires one == map["x" := 1]
    ensures Exec(FOREVER, one).None? && L.Run(FOREVER, one, true) == map[]
  {
    hide L.Turn, L.Ends;
    StuckScoped();
    forall i: nat ensures !LoopEnds(Variable("x"), Assign("x", Variable("x")), one, i) { ForeverTurns(one, i); }
    LoopFreeStops(FOREVER.body);
    LoopDelivers(FOREVER, {"x"}, one, one, "x");
    ForeverKeeps(one);
  }

  lemma ForeverKeeps(one: Env)
    requires one == map["x" := 1]
    ensures forall x :: x in L.Run(FOREVER, one, true) ==> x == "x"
  {
  }

  lemma StuckDelivers()
    ensures Scoped(STUCK, {})
    ensures Exec(STUCK, map[]).None?
    ensures L.Run(STUCK, map[], true) == map["y" := 5]
  {
    StuckScoped();
    var one: Env := map["x" := 1];
    var empty: Env := map[];
    assert empty["x" := 1] == one;
    ForeverRuns(one);
    StuckAround(FOREVER, empty, one);
  }

  lemma StuckAround(w: Stmt, empty: Env, one: Env)
    requires empty == map[] && one == empty["x" := 1]
    requires Exec(w, one).None? && L.Run(w, one, true) == map[]
    ensures Exec(Seq(Seq(Assign("x", Number(1)), w), Assign("y", Number(5))), empty).None?
    ensures L.Run(Seq(Seq(Assign("x", Number(1)), w), Assign("y", Number(5))), empty, true) == map["y" := 5]
  {
    var set1, set5 := Assign("x", Number(1)), Assign("y", Number(5));
    assert Exec(set1, empty) == Some(one) && L.Run(set1, empty, true) == one;
    assert Exec(Seq(set1, w), empty).None?;
    assert L.Run(Seq(set1, w), empty, true) == map[];
  }
}
