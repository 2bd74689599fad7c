// What the dataflow program computes, variable by variable. A variable without a token is simply
// absent; nothing waits for a variable it does not need. `live` says whether literals fire.
module Lenient {
  import opened Words
  import opened Force

  function Value(e: Expr, env: Env, live: bool): Option<Data> {
    match e
    case Number(n) => if live then Some(n) else None
    case Variable(x) => if x in env then Some(env[x]) else None
    case Binary(op, l, r) =>
      var a, b := Value(l, env, live), Value(r, env, live);
      if a.Some? && b.Some? then Some(Compute(op, a.value, b.value)) else None
  }

  function Restrict(env: Env, u: set<Var>): Env {
    map x | x in env && x in u :: env[x]
  }

  // env outside u, and r on u.
  function Overlay(env: Env, u: set<Var>, r: Env): Env {
    (env - u) + Restrict(r, u)
  }

  ghost function Run(s: Stmt, env: Env, live: bool): (r: Env)
    decreases s, 0, 0
  {
    match s
    case Skip => env
    case Seq(a, b) => Run(b, Run(a, env, live), live)
    case Assign(x, e) =>
      var v := Value(e, env, live);
      if v.Some? then env[x := v.value] else env - {x}
    case If(c, a, b, _, _) =>
      var u, v := BranchVars(s), Value(c, env, live);
      if v.None? then env - u
      else Overlay(env, u, Run(if v.value != 0 then a else b, Restrict(env, u), live))
    case While(c, b, order) =>
      if |order| == 0 then env
      else if i: nat :| Ends(s, env, i) then Overlay(env, Used(s), Turn(s, env, i))
      else env - Used(s)
  }

  // Literals inside a loop fire when its first variable is present.
  predicate TurnLive(s: Stmt, env: Env)
    requires s.While? && |s.order| > 0
  {
    s.order[0] in env
  }

  // The variables present at the start of turn i.
  ghost function Turn(s: Stmt, env: Env, i: nat): Env
    requires s.While? && |s.order| > 0
    decreases s.body, 1, i
  {
    if i == 0 then (if s.order[0] in env then Restrict(env, Used(s)) else map[])
    else
      var prev := Turn(s, env, i - 1);
      if Test(s, prev).Some? && Test(s, prev).value != 0
      then Restrict(Run(s.body, prev, TurnLive(s, prev)), Used(s)) else map[]
  }

  function Test(s: Stmt, env: Env): Option<Data>
    requires s.While? && |s.order| > 0
  {
    Value(s.cond, env, TurnLive(s, env))
  }

  // Turn i is where the loop is left.
  ghost predicate Ends(s: Stmt, env: Env, i: nat)
    requires s.While? && |s.order| > 0
    decreases s.body, 2, i
  {
    Test(s, Turn(s, env, i)) == Some(0)
  }

  // ---- A loop is left at most once ----

  lemma {:induction false} NoValue(e: Expr)
    ensures Value(e, map[], false) == None
  {
    match e
    case Binary(_, l, r) => NoValue(l); NoValue(r);
    case _ =>
  }

  lemma {:induction false} NothingAfter(s: Stmt, env: Env, i: nat, j: nat)
    requires s.While? && |s.order| > 0 && Ends(s, env, i) && i < j
    ensures Turn(s, env, j) == map[] && !Ends(s, env, j)
    decreases j
  {
    hide Value;
    NoValue(s.cond);
    if i + 1 < j { NothingAfter(s, env, i, j - 1); }
  }

  lemma EndsOnce(s: Stmt, env: Env, i: nat, j: nat)
    requires s.While? && |s.order| > 0 && Ends(s, env, i) && Ends(s, env, j)
    ensures i == j
  {
    if i < j { NothingAfter(s, env, i, j); }
    if j < i { NothingAfter(s, env, j, i); }
  }

  lemma EndsAt(s: Stmt, env: Env, i: nat)
    requires s.While? && |s.order| > 0 && Ends(s, env, i)
    ensures Run(s, env, live := true) == Overlay(env, Used(s), Turn(s, env, i))
    ensures Run(s, env, live := false) == Overlay(env, Used(s), Turn(s, env, i))
  {
    hide Value, Overlay;
    forall j: nat | Ends(s, env, j) ensures j == i { EndsOnce(s, env, i, j); }
  }

  // With no variables and no literals nothing happens.
  lemma {:induction false} NothingRuns(s: Stmt)
    ensures Run(s, map[], false) == map[]
  {
    match s
    case Skip =>
    case Seq(a, b) =>
      NothingRuns(a);
      NothingRuns(b);
    case Assign(x, e) => NoValue(e);
    case If(c, _, _, _, _) => NoValue(c);
    case While(c, _, order) =>
      if |order| > 0 { forall i: nat { NeverStarts(s, i); } }
  }

  lemma {:induction false} NeverStarts(s: Stmt, i: nat)
    requires s.While? && |s.order| > 0
    ensures Turn(s, map[], i) == map[] && !Ends(s, map[], i)
    decreases i
  {
    hide Value;
    NoValue(s.cond);
    if i > 0 { NeverStarts(s, i - 1); }
  }
}
