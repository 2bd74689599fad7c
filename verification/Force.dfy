// The structured source language: assignments, arithmetic, if/else and while over 64-bit words.
module Force {
  import opened Words

  type Var = string

  datatype Expr = Number(n: Data) | Variable(x: Var) | Binary(op: BinOp, left: Expr, right: Expr)

  // `order` and `merge` record in which order the compiler happens to walk its sets of variables
  // at this node; every order is allowed.
  datatype Stmt =
    | Skip
    | Seq(first: Stmt, rest: Stmt)
    | Assign(x: Var, e: Expr)
    | If(cond: Expr, thn: Stmt, els: Stmt, order: seq<Var>, merge: seq<Var>)
    | While(cond: Expr, body: Stmt, order: seq<Var>)

  type Env = map<Var, Data>

  // ---- Variables that occur (UsedVariablesPass with the left-hand sides counted) ----

  function UsedExpr(e: Expr): set<Var> {
    match e
    case Number(_) => {}
    case Variable(x) => {x}
    case Binary(_, l, r) => UsedExpr(r) + UsedExpr(l)
  }

  function Used(s: Stmt): set<Var> {
    match s
    case Skip => {}
    case Seq(a, b) => Used(a) + Used(b)
    case Assign(x, e) => {x} + UsedExpr(e)
    case If(c, a, b, _, _) => UsedExpr(c) + Used(a) + Used(b)
    case While(c, b, _) => UsedExpr(c) + Used(b)
  }

  // The variables a conditional forwards into its branches: those of the two blocks.
  function BranchVars(s: Stmt): set<Var>
    requires s.If?
  {
    Used(s.thn) + Used(s.els)
  }

  // ---- Programs the compiler theorem is about ----

  predicate Distinct<T(==)>(q: seq<T>) {
    forall i, j :: 0 <= i < j < |q| ==> q[i] != q[j]
  }

  // q walks the set s once.
  predicate Enumerates(q: seq<Var>, s: set<Var>) {
    Distinct(q) && (set x | x in q) == s
  }

  // The variables defined after s when those of d are defined before it.
  function After(s: Stmt, d: set<Var>): set<Var> {
    match s
    case Assign(x, _) => d + {x}
    case Seq(a, b) => After(b, After(a, d))
    case _ => d
  }

  // Every variable is defined before its use, and before the loop or conditional it occurs in;
  // a loop uses at least one variable.
  predicate Scoped(s: Stmt, d: set<Var>) {
    match s
    case Skip => true
    case Seq(a, b) => Scoped(a, d) && Scoped(b, After(a, d))
    case Assign(_, e) => UsedExpr(e) <= d
    case If(c, a, b, order, merge) =>
      && UsedExpr(c) <= d && BranchVars(s) <= d
      && Enumerates(order, BranchVars(s)) && Enumerates(merge, BranchVars(s))
      && Scoped(a, BranchVars(s)) && Scoped(b, BranchVars(s))
    case While(c, b, order) =>
      && Used(s) <= d && |order| > 0 && Enumerates(order, Used(s))
      && Scoped(b, Used(s))
  }

  lemma {:induction false} ScopedMore(s: Stmt, d: set<Var>, e: set<Var>)
    requires Scoped(s, d) && d <= e
    ensures Scoped(s, e) && After(s, d) <= After(s, e)
  {
    match s
    case Seq(a, b) =>
      ScopedMore(a, d, e);
      ScopedMore(b, After(a, d), After(a, e));
    case _ =>
  }

  lemma {:induction false} AfterUsed(s: Stmt, d: set<Var>)
    requires Used(s) <= d
    ensures After(s, d) == d
  {
    match s
    case Seq(a, b) =>
      AfterUsed(a, d);
      AfterUsed(b, d);
    case _ =>
  }

  // ---- Meaning ----

  function Lookup(env: Env, x: Var): Data {
    if x in env then env[x] else 0
  }

  function Eval(e: Expr, env: Env): Data {
    match e
    case Number(n) => n
    case Variable(x) => Lookup(env, x)
    case Binary(op, l, r) => Compute(op, Eval(l, env), Eval(r, env))
  }

  // The environment after s, or None if s does not terminate.
  ghost function Exec(s: Stmt, env: Env): (r: Option<Env>)
    decreases s, 0, 0
  {
    match s
    case Skip => Some(env)
    case Seq(a, b) =>
      var mid := Exec(a, env);
      if mid.Some? then Exec(b, mid.value) else None
    case Assign(x, e) => Some(env[x := Eval(e, env)])
    case If(c, a, b, _, _) => if Eval(c, env) != 0 then Exec(a, env) else Exec(b, env)
    case While(c, b, _) =>
      if exists i: nat :: LoopEnds(c, b, env, i)
      then var i: nat :| LoopEnds(c, b, env, i); Iteration(c, b, env, i)
      else None
  }

  // The environment at the start of iteration i, if the loop gets there.
  ghost function Iteration(c: Expr, b: Stmt, env: Env, i: nat): Option<Env>
    decreases b, 1, i
  {
    if i == 0 then Some(env) else
      var prev := Iteration(c, b, env, i - 1);
      if prev.Some? && Eval(c, prev.value) != 0 then Exec(b, prev.value) else None
  }

  // The loop stops at iteration i.
  ghost predicate LoopEnds(c: Expr, b: Stmt, env: Env, i: nat)
    decreases b, 2, i
  {
    Iteration(c, b, env, i).Some? && Eval(c, Iteration(c, b, env, i).value) == 0
  }

  lemma {:induction false} NoIterationAfter(c: Expr, b: Stmt, env: Env, i: nat, j: nat)
    requires LoopEnds(c, b, env, i) && i < j
    ensures Iteration(c, b, env, j).None?
    decreases j
  {
    hide Eval;
    if i + 1 < j { NoIterationAfter(c, b, env, i, j - 1); }
  }

  // A loop stops at most once.
  lemma LoopEndsOnce(c: Expr, b: Stmt, env: Env, i: nat, j: nat)
    requires LoopEnds(c, b, env, i) && LoopEnds(c, b, env, j)
    ensures i == j
  {
    if i < j { NoIterationAfter(c, b, env, i, j); }
    if j < i { NoIterationAfter(c, b, env, j, i); }
  }

  lemma EndsAt(c: Expr, b: Stmt, order: seq<Var>, env: Env, i: nat)
    requires LoopEnds(c, b, env, i)
    ensures Exec(While(c, b, order), env) == Iteration(c, b, env, i)
  {
    hide Eval;
    forall j: nat | LoopEnds(c, b, env, j) ensures j == i { LoopEndsOnce(c, b, env, i, j); }
  }

  // While is if-then-while-again.
  lemma WhileUnfolds(c: Expr, b: Stmt, order: seq<Var>, env: Env)
    ensures Exec(While(c, b, order), env)
      == if Eval(c, env) == 0 then Some(env)
         else if Exec(b, env).Some? then Exec(While(c, b, order), Exec(b, env).value) else None
  {
    hide Eval;
    if Eval(c, env) == 0 {
      EndsAt(c, b, order, env, 0);
    } else if Exec(b, env).Some? {
      WhileTurns(c, b, order, env);
    } else {
      forall i: nat ensures !LoopEnds(c, b, env, i) { Stuck(c, b, env, i); }
    }
  }

  lemma WhileTurns(c: Expr, b: Stmt, order: seq<Var>, env: Env)
    requires Eval(c, env) != 0 && Exec(b, env).Some?
    ensures Exec(While(c, b, order), env) == Exec(While(c, b, order), Exec(b, env).value)
  {
    hide Eval, Iteration, Exec;
    var next := Exec(b, env).value;
    NotYet(c, b, env);
    if i: nat :| LoopEnds(c, b, env, i) {
      Shift(c, b, env, i - 1);
      EndsAt(c, b, order, env, i);
      EndsAt(c, b, order, next, i - 1);
    } else {
      forall j: nat ensures !LoopEnds(c, b, next, j) {
        Shift(c, b, env, j);
        assert !LoopEnds(c, b, env, j + 1);
      }
      NeverEnds(c, b, order, env);
      NeverEnds(c, b, order, next);
    }
  }

  lemma NotYet(c: Expr, b: Stmt, env: Env)
    requires Eval(c, env) != 0
    ensures !LoopEnds(c, b, env, 0)
  {
  }

  lemma NeverEnds(c: Expr, b: Stmt, order: seq<Var>, env: Env)
    requires forall i: nat :: !LoopEnds(c, b, env, i)
    ensures Exec(While(c, b, order), env) == None
  {
    hide Eval, LoopEnds;
  }

  lemma {:induction false} Shift(c: Expr, b: Stmt, env: Env, i: nat)
    requires Eval(c, env) != 0 && Exec(b, env).Some?
    ensures Iteration(c, b, env, i + 1) == Iteration(c, b, Exec(b, env).value, i)
    decreases i
  {
    hide Eval;
    if i > 0 { Shift(c, b, env, i - 1); }
  }

  lemma {:induction false} Stuck(c: Expr, b: Stmt, env: Env, i: nat)
    requires Eval(c, env) != 0 && Exec(b, env).None?
    ensures i > 0 ==> Iteration(c, b, env, i).None?
    ensures !LoopEnds(c, b, env, i)
    decreases i
  {
    hide Eval;
    if i > 1 { Stuck(c, b, env, i - 1); }
  }

  // ---- Frame ----

  // Running s only changes the variables it uses.
  lemma {:induction false} ExecFrame(s: Stmt, env: Env)
    ensures var r := Exec(s, env);
      r.Some? ==> forall y :: y !in Used(s) ==> Lookup(r.value, y) == Lookup(env, y)
    decreases s, 0, 0
  {
    match s
    case Skip =>
    case Seq(a, b) =>
      ExecFrame(a, env);
      if Exec(a, env).Some? { ExecFrame(b, Exec(a, env).value); }
    case Assign(x, e) =>
    case If(c, a, b, _, _) =>
      ExecFrame(a, env);
      ExecFrame(b, env);
    case While(c, b, _) =>
      forall i: nat { IterationFrame(c, b, env, i); }
  }

  lemma {:induction false} IterationFrame(c: Expr, b: Stmt, env: Env, i: nat)
    ensures var r := Iteration(c, b, env, i);
      r.Some? ==> forall y :: y !in Used(b) ==> Lookup(r.value, y) == Lookup(env, y)
    decreases b, 1, i
  {
    hide Eval;
    if i > 0 {
      IterationFrame(c, b, env, i - 1);
      var prev := Iteration(c, b, env, i - 1);
      if prev.Some? { ExecFrame(b, prev.value); }
    }
  }
}
