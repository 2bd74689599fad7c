// The whole story of a compiled program: whatever the order in which its lines fire, it prints
// what the source program computes.
module Delivery {
  import opened Words
  import F = Force
  import L = Lenient
  import A = Adequacy
  import opened Tass
  import opened Rules
  import opened Codegen
  import opened Simulation
  import opened Uniqueness
  import opened Compiled
  import opened TokenGame

  predicate Prints(s: F.Stmt, q: seq<Var>) {
    F.Scoped(s, {}) && forall x :: x in q ==> x in F.After(s, {})
  }

  // The k-th print line fires with the value v, under the first tag.
  function Printing(s: F.Stmt, q: seq<Var>, k: nat, v: Data): Firing
    requires Prints(s, q) && k < |q|
  {
    Firing(|Final(s).lines| + k, One(Token(Final(s).vars[q[k]], NO_TAG, Num(v))))
  }

  lemma PrintLine(s: F.Stmt, q: seq<Var>, k: nat)
    requires Prints(s, q) && k < |q|
    ensures var i := |Final(s).lines| + k;
      i < |Compile(s, q)| && Compile(s, q)[i] == Output(Final(s).vars[q[k]])
  {
    hide Final, Compile;
    ProgramIs(s, q);
  }

  // ---- Matching is never ambiguous ----

  ghost predicate SlotsSafe(g: Game) {
    && (forall a :: g.inbox[a] <= 1)
    && forall a, b :: a in g.inbox && b in g.inbox && SameSlot(a, b) ==> a == b
  }

  predicate SameSlot(a: Arrival, b: Arrival) {
    a.Arrival? && b.Arrival? && a.line == b.line && a.port == b.port && a.token.tag == b.token.tag
  }

  // What every state of a run of a regular program is like.
  lemma InvSafe(P: seq<Line>, g: Game)
    requires Regular(P) && Inv(P, g)
    ensures SlotsSafe(g)
  {
    hide Regular, Supported, Flow;
    SentSupported(P, g);
    forall a, b | a in g.inbox && b in g.inbox && SameSlot(a, b)
      ensures a == b
    {
      Arrived(P, g, a);
      Arrived(P, g, b);
      InputsSingle(P, Sent(g), P[a.line]);
      assert a.token in Sent(g) && b.token in Sent(g);
    }
  }

  // In no state of any run does a slot hold two tokens under the same tag.
  lemma RunsAreSafe(s: F.Stmt, q: seq<Var>, r: nat -> Game, n: nat)
    requires Prints(s, q) && IsRun(Compile(s, q), r)
    ensures SlotsSafe(r(n))
  {
    hide Compile, IsRun, Regular, Inv;
    CompiledRegular(s, q);
    RunInv(Compile(s, q), r, n);
    InvSafe(Compile(s, q), r(n));
  }

  lemma Arrived(P: seq<Line>, g: Game, a: Arrival)
    requires Inv(P, g) && a in g.inbox && a.Arrival?
    ensures a.token in g.log && Reads(P, a.line, a.port, a.token.name) && a.token.name in Ins(P[a.line])
  {
    assert Flow(P, g, a);
  }

  // ---- What is printed ----

  // What the k-th printed name carries.
  lemma PrintedAt(s: F.Stmt, q: seq<Var>, T: iset<Token>, full: bool, k: nat, t: Tag)
    requires Prints(s, q) && k < |q| && Ok(Compile(s, q), T, full)
    ensures At(T, Final(s).vars[q[k]], t, if t == NO_TAG then NumIn(L.Run(s, map[], true), q[k]) else None, full)
  {
    hide Compile, Ok, At, Final, L.Run, F.Scoped;
    CompiledValues(Compile(s, q), T, full, s, q);
    if t != NO_TAG {
      assert VarsAt(T, Final(s).vars, F.After(s, {}), t, map[], full);
      assert NumIn(map[], q[k]) == None;
    }
  }

  // Any run, at any moment: a print line has fired at most once, and only with the value the
  // source gives to its variable.
  lemma PrintsSafely(s: F.Stmt, q: seq<Var>, r: nat -> Game, n: nat, f: Firing, k: nat)
    requires Prints(s, q) && IsRun(Compile(s, q), r) && k < |q|
    requires f in r(n).done && f.line == |Final(s).lines| + k
    ensures r(n).done[f] == 1
    ensures var env := L.Run(s, map[], true);
      q[k] in env && f == Printing(s, q, k, env[q[k]])
  {
    hide Compile, IsRun, Supported, SingleDefs, Good, Flow, Final, L.Run, F.Scoped;
    var P, g := Compile(s, q), r(n);
    PrintLine(s, q, k);
    CompiledRegular(s, q);
    RunInv(P, r, n);
    SentSupported(P, g);
    assert Accounted(P, g, f);
    var tok := f.ins.x;
    PrintedAt(s, q, Sent(g), false, k, tok.tag);
    assert tok == Token(Final(s).vars[q[k]], tok.tag, tok.word) && tok in Sent(g);
  }

  lemma PrintsEventually(s: F.Stmt, q: seq<Var>, r: nat -> Game, k: nat)
    requires Prints(s, q) && IsRun(Compile(s, q), r) && Fair(Compile(s, q), r) && k < |q|
    requires q[k] in L.Run(s, map[], true)
    ensures Fires(r, Printing(s, q, k, L.Run(s, map[], true)[q[k]]))
  {
    hide Compile, IsRun, Fair, Regular, Ok, Final, L.Run, F.Scoped, Fires;
    var P := Compile(s, q);
    PrintLine(s, q, k);
    CompiledRegular(s, q);
    FairOk(P, r);
    PrintedAt(s, q, All(r), true, k, NO_TAG);
    FairFires(P, r, Printing(s, q, k, L.Run(s, map[], true)[q[k]]));
  }

  // A run that neglects no enabled line prints exactly the variables the dataflow computes.
  lemma PrintsExactly(s: F.Stmt, q: seq<Var>, r: nat -> Game, k: nat, v: Data)
    requires Prints(s, q) && IsRun(Compile(s, q), r) && Fair(Compile(s, q), r) && k < |q|
    ensures Fires(r, Printing(s, q, k, v)) <==>
      q[k] in L.Run(s, map[], true) && L.Run(s, map[], true)[q[k]] == v
  {
    hide Compile, IsRun, Fair, Final, L.Run, F.Scoped;
    var f := Printing(s, q, k, v);
    if n: nat :| f in r(n).done { PrintsSafely(s, q, r, n, f, k); }
    if q[k] in L.Run(s, map[], true) { PrintsEventually(s, q, r, k); }
  }

  // If the source program terminates, every fair run prints the value every variable has at its end.
  lemma TerminatingPrints(s: F.Stmt, q: seq<Var>, r: nat -> Game, k: nat, v: Data)
    requires Prints(s, q) && IsRun(Compile(s, q), r) && Fair(Compile(s, q), r) && k < |q|
    requires F.Exec(s, map[]).Some?
    ensures Fires(r, Printing(s, q, k, v)) <==> v == F.Lookup(F.Exec(s, map[]).value, q[k])
  {
    hide Compile, IsRun, Fair, Final, L.Run, F.Scoped, F.Exec, Fires;
    A.Adequate(s, {}, map[], map[]);
    PrintsExactly(s, q, r, k, v);
  }

  // Printing does not tell whether the source terminates: this program does not, and y is printed.
  lemma StuckPrints(r: nat -> Game)
    requires Prints(A.STUCK, ["x", "y"]) && IsRun(Compile(A.STUCK, ["x", "y"]), r)
    requires Fair(Compile(A.STUCK, ["x", "y"]), r)
    ensures F.Exec(A.STUCK, map[]).None?
    ensures forall v :: Fires(r, Printing(A.STUCK, ["x", "y"], 1, v)) <==> v == 5
    ensures forall v :: !Fires(r, Printing(A.STUCK, ["x", "y"], 0, v))
  {
    hide Compile, IsRun, Fair, Final, F.Scoped, F.Exec, Fires, Prints, Printing, L.Run;
    A.StuckDelivers();
    var s, q := A.STUCK, ["x", "y"];
    forall v
      ensures Fires(r, Printing(s, q, 1, v)) <==> v == 5
      ensures !Fires(r, Printing(s, q, 0, v))
    {
      PrintsExactly(s, q, r, 0, v);
      PrintsExactly(s, q, r, 1, v);
    }
  }
}
