// The machine comes to an end exactly if the source does.
module Ending {
  import opened Words
  import F = Force
  import T = Tass
  import G = TokenGame
  import R = Rules
  import opened Codegen
  import opened Compiled
  import opened Finiteness
  import opened Typing
  import D = Delivery
  import opened Types
  import M = Machine
  import opened Wires
  import opened Execution
  import opened Following
  import opened Running
  import opened Beginning
  import opened Quiescence
  import opened EndToEnd
  import A = Adequacy
  import L = Lenient
  import opened Circuit
  import K = Linked
  import S = Loader

  // ---- How many firings there can be ----

  // All firings of n lines on tokens of X.
  ghost function Firings(n: nat, X: set<T.Token>): set<G.Firing> {
    (set i: nat | i < n :: G.Firing(i, T.Nothing))
    + (set i: nat, x | i < n && x in X :: G.Firing(i, T.One(x)))
    + (set i: nat, x, y | i < n && x in X && y in X :: G.Firing(i, T.Two(x, y)))
  }

  lemma {:induction false} BagInSet<A>(m: multiset<A>, s: set<A>)
    requires forall a :: m[a] <= 1 && (a in m ==> a in s)
    ensures |m| <= |s|
    decreases s
  {
    if s == {} {
      assert m == multiset{};
    } else {
      var a :| a in s;
      BagInSet(m - multiset{a}, s - {a});
    }
  }

  // Every firing happens at most once.
  lemma FewFirings(P: seq<T.Line>, g: G.Game, X: set<T.Token>)
    requires G.Inv(P, g) && forall tok :: tok in G.Sent(g) ==> tok in X
    ensures |g.done| <= |Firings(|P|, X)|
  {
    hide G.Flow, T.Matched, T.Emit;
    forall f | f in g.done
      ensures f in Firings(|P|, X)
    {
      assert G.Accounted(P, g, f);
    }
    BagInSet(g.done, Firings(|P|, X));
  }

  // ---- A program with finitely many tokens comes to rest ----

  lemma Awake(s: M.State) returns (i: M.Item)
    requires !M.Quiet(s)
    ensures M.Enabled(s, i)
  {
    i :| i in s.flight && !(i.PrintedNumber? || i.PrintedText?);
  }

  lemma TracksFew(u: Setup, X: set<T.Token>, s: M.State, q: seq<Part>, gs: seq<G.Game>, k: nat)
    requires Tracks(u, s, q, gs, k) && forall tok :: tok in Tokens(u.P) ==> tok in X
    ensures gs != [] && |gs[|gs| - 1].done| <= |Firings(|u.P|, X)|
  {
    hide G.Path, Tokens, Flight, HeldBy, WaitsAre, PrintsAre, PartOk, Fresh, Firings, G.Inv;
    G.PathEnds(u.P, gs);
    FewFirings(u.P, gs[|gs| - 1], X);
  }

  lemma {:induction false} RunsOut(u: Setup, X: set<T.Token>, s: M.State, q: seq<Part>, gs: seq<G.Game>, k: nat)
    returns (t: M.State, n: nat)
    requires Sound(u) && Tracks(u, s, q, gs, k) && (forall j: nat :: FreshFor(u, j)) && forall tok :: tok in Tokens(u.P) ==> tok in X
    ensures M.Steps(u.Machine(), s, t, n) && M.Quiet(t)
    decreases |Firings(|u.P|, X)| - (if gs != [] then |gs[|gs| - 1].done| else 0), Weights(u, q)
  {
    hide Sound, Tracks, FreshFor, FreshAfter, G.Path, M.Next, M.Enabled, M.Quiet, G.Next, Tokens, Firings, Weights;
    TracksFew(u, X, s, q, gs, k);
    if M.Quiet(s) {
      t, n := s, 0;
    } else {
      var i := Awake(s);
      var stale := Token(0, 0, 0);
      var r, hs := OneStep(u, s, q, gs, k, i, stale);
      TracksFew(u, X, M.Next(u.Machine(), s, i, stale), r, hs, k + 1);
      t, n := RunsOut(u, X, M.Next(u.Machine(), s, i, stale), r, hs, k + 1);
      n := n + 1;
      assert M.Enabled(s, i) && M.Steps(u.Machine(), M.Next(u.Machine(), s, i, stale), t, n - 1);
    }
  }

  // One step of the machine, followed by the game.
  lemma OneStep(u: Setup, s: M.State, q: seq<Part>, gs: seq<G.Game>, k: nat, i: M.Item, stale: Types.Token)
    returns (r: seq<Part>, hs: seq<G.Game>)
    requires Sound(u) && Tracks(u, s, q, gs, k) && (forall j: nat :: FreshFor(u, j)) && M.Enabled(s, i) && gs != []
    ensures Tracks(u, M.Next(u.Machine(), s, i, stale), r, hs, k + 1) && hs != []
    ensures var g, h := gs[|gs| - 1], hs[|hs| - 1];
      |h.done| == |g.done| + 1 || (|h.done| == |g.done| && Weights(u, r) < Weights(u, q))
  {
    hide Sound, Shows, FreshFor, FreshAfter, G.Path, M.Next, M.Enabled, G.Next, Weights;
    FreshNext(u, gs, k + 1);
    var q1, h := Step(u, s, q, gs[|gs| - 1], i, stale);
    NextCounts(u.P, gs[|gs| - 1], h);
    G.PathMore(u.P, gs, h);
    r, hs := q1, gs + [h];
  }

  lemma AlwaysFresh(u: Setup)
    requires forall n: nat :: FreshRun(u, n)
    ensures forall j: nat :: FreshFor(u, j)
  {
    hide FreshFor;
    forall j: nat
      ensures FreshFor(u, j)
    {
      assert FreshRun(u, j);
      FreshLess(u, |u.c.Program()| + j, j);
    }
  }

  lemma TokensFinite(s: F.Stmt, q: seq<Var>, u: Setup) returns (X: set<T.Token>)
    requires Loaded(s, q, u) && F.Exec(s, map[]).Some?
    ensures forall tok :: tok in Tokens(u.P) ==> tok in X
  {
    hide F.Exec, F.Scoped, Tokens, Compile;
    TokensSupported(u.P);
    X := TerminatingFinite(s, q, Tokens(u.P));
  }

  // ---- How long tags have to stay apart ----

  lemma {:induction false} PathTokens(P: seq<T.Line>, gs: seq<G.Game>)
    requires Regular(P) && G.Path(P, gs)
    ensures G.Inv(P, gs[|gs| - 1]) && G.Sent(gs[|gs| - 1]) <= Tokens(P)
    decreases |gs|
  {
    hide Regular, G.Inv, G.Consumed, T.Matched, T.Emit, Tokens, G.Deliveries;
    var n := |gs| - 1;
    if n == 0 {
      G.InitInv(P);
    } else {
      var before := gs[..n];
      PathTokens(P, before);
      assert before[|before| - 1] == gs[n - 1] && G.Next(P, gs[n - 1], gs[n - 1 + 1]);
      if gs[n] != gs[n - 1] {
        var f :| G.Enabled(P, gs[n - 1], f) && gs[n] == G.Fire(P, gs[n - 1], f);
        G.StepInv(P, gs[n - 1], f);
        FireTokens(P, gs[n - 1], f);
      }
    }
  }

  // A terminating program fires only so often: tags that stay apart so long stay apart for ever.
  lemma TerminatingFresh(s: F.Stmt, q: seq<Var>, u: Setup) returns (enough: nat)
    requires Loaded(s, q, u) && F.Exec(s, map[]).Some?
    ensures FreshRun(u, enough) ==> forall n: nat :: FreshRun(u, n)
  {
    hide F.Exec, Loaded, Fresh, G.Path, Tokens, Firings, Regular, G.Inv;
    LoadedSound(s, q, u);
    SoundParts(u);
    var X := TokensFinite(s, q, u);
    enough := |Firings(|u.P|, X)|;
    if FreshRun(u, enough) {
      forall gs: seq<G.Game> | gs != [] && G.Path(u.P, gs)
        ensures Fresh(u, G.Sent(gs[|gs| - 1]))
      {
        PathTokens(u.P, gs);
        FewFirings(u.P, gs[|gs| - 1], X);
      }
      forall n: nat ensures FreshRun(u, n) { AllFresh(u, n); }
    }
  }

  lemma AllFresh(u: Setup, n: nat)
    requires forall gs: seq<G.Game> :: gs != [] && G.Path(u.P, gs) ==> Fresh(u, G.Sent(gs[|gs| - 1]))
    ensures FreshRun(u, n)
  {
    hide Fresh;
  }

  lemma ComesToRest(s: F.Stmt, q: seq<Var>, u: Setup) returns (t: M.State, n: nat)
    requires Loaded(s, q, u) && (forall n: nat :: FreshRun(u, n)) && F.Exec(s, map[]).Some?
    ensures Reaches(u, t, n) && M.Quiet(t)
  {
    hide Loaded, FreshRun, FreshFor, Sound, Tracks, F.Exec, M.Steps, M.Start, M.Quiet, Tokens;
    LoadedSound(s, q, u);
    AlwaysFresh(u);
    var X := TokensFinite(s, q, u);
    var parts, gs := StartFollows(u);
    t, n := RunsOut(u, X, M.Start(u.Machine()), parts, gs, |u.c.Program()|);
  }

  // If the source terminates, so does the machine, with exactly its final values printed; and no
  // schedule can prevent it: every run, however it began, has that many steps in all.
  lemma TerminatingEnds(s: F.Stmt, q: seq<Var>, u: Setup) returns (t: M.State, n: nat)
    requires Loaded(s, q, u) && (forall n: nat :: FreshRun(u, n)) && F.Exec(s, map[]).Some?
    ensures Reaches(u, t, n) && M.Quiet(t) && t.flight == SourceOutput(F.Exec(s, map[]).value, q, |q|)
    ensures forall t', k: nat :: Reaches(u, t', k) ==> k <= n && M.Steps(u.Machine(), t', t, n - k)
  {
    hide Loaded, FreshRun, Sound, F.Exec, M.SafeFrom, M.Steps, M.Quiet, SourceOutput;
    t, n := ComesToRest(s, q, u);
    assert FreshRun(u, n);
    SourcePrinted(s, q, u, t, n);
    LoadedSound(s, q, u);
    AlwaysSafe(u);
    forall t', k: nat | Reaches(u, t', k)
      ensures k <= n && M.Steps(u.Machine(), t', t, n - k)
    {
      M.Confluence(u.Machine(), M.Start(u.Machine()), t, n, t', k);
    }
  }

  // ---- ... and only if it does ----

  lemma SilentTokens(P: seq<T.Line>, gs: seq<G.Game>) returns (X: set<T.Token>)
    requires Regular(P) && G.Path(P, gs) && Silent(P, gs[|gs| - 1])
    ensures var all := G.All(RunOf(gs)); R.Ok(P, all, true) && Bound(all, X)
  {
    hide Regular, G.Enabled, G.IsRun, G.Fair, Silent, R.Ok;
    RunOfIs(P, gs);
    SilentIsFair(P, gs);
    G.FairOk(P, RunOf(gs));
    var last := gs[|gs| - 1];
    X := set tok | tok in last.log;
    forall tok | tok in G.All(RunOf(gs))
      ensures tok in X
    {
      assert G.InLog(RunOf(gs), tok);
      var n: nat :| tok in RunOf(gs)(n).log;
      var m := if n < |gs| - 1 then |gs| - 1 else n;
      G.History(P, RunOf(gs), n, m);
      assert tok in G.Sent(RunOf(gs)(m));
    }
  }

  // A machine that has come to an end has run a program that terminates.
  lemma QuietTerminates(s: F.Stmt, q: seq<Var>, u: Setup, t: M.State, n: nat)
    requires Loaded(s, q, u) && FreshRun(u, n) && Reaches(u, t, n) && M.Quiet(t)
    ensures F.Exec(s, map[]).Some?
  {
    hide Loaded, FreshRun, Shows, Sound, Silent, Regular, G.Path, M.Quiet, F.Exec, Bound, G.All, M.Steps, M.Start;
    LoadedSound(s, q, u);
    var parts, gs := ReachableFollows(u, t, n);
    G.PathEnds(u.P, gs);
    QuietIsSilent(u, t, parts, gs[|gs| - 1]);
    SoundParts(u);
    var X := SilentTokens(u.P, gs);
    LoadedFinite(s, q, u, G.All(RunOf(gs)), X);
  }

  lemma LoadedFinite(s: F.Stmt, q: seq<Var>, u: Setup, all: iset<T.Token>, X: set<T.Token>)
    requires Loaded(s, q, u) && R.Ok(u.P, all, true) && Bound(all, X)
    ensures F.Exec(s, map[]).Some?
  {
    hide F.Exec, F.Scoped, Compile, Bound, T.Supported, T.Closed;
    FiniteTerminates(s, q, all, X);
  }

  // The machine can come to an end if and only if the source terminates. Of programs that do not
  // terminate nothing is assumed beyond the run itself.
  lemma EndsExactly(s: F.Stmt, q: seq<Var>, u: Setup)
    requires Loaded(s, q, u) && (F.Exec(s, map[]).Some? ==> forall n: nat :: FreshRun(u, n))
    ensures (exists t, n: nat :: FreshRun(u, n) && Reaches(u, t, n) && M.Quiet(t)) <==> F.Exec(s, map[]).Some?
  {
    hide Loaded, FreshRun, F.Exec, M.Quiet, M.Steps, M.Start;
    if F.Exec(s, map[]).Some? {
      var t, n := ComesToRest(s, q, u);
      assert FreshRun(u, n);
    }
    if t, n: nat :| FreshRun(u, n) && Reaches(u, t, n) && M.Quiet(t) { QuietTerminates(s, q, u, t, n); }
  }

  // ---- A program that does not terminate ----

  const STUCK_PRINTS: seq<Var> := ["x", "y"]

  // x = 1; while (x) { x = x; } y = 5; never comes to an end, prints nothing but one 5, and never x.
  lemma StuckRuns(u: Setup, t: M.State, n: nat)
    requires Loaded(A.STUCK, STUCK_PRINTS, u) && FreshRun(u, n) && Reaches(u, t, n)
    ensures !M.Quiet(t)
    ensures forall i :: IsPrinted(i) ==> t.flight[i] <= if i == M.PrintedNumber(5) then 1 else 0
  {
    hide Loaded, FreshRun, F.Exec, M.Quiet, M.Steps, M.Start, L.Run, Output;
    A.StuckDelivers();
    if M.Quiet(t) { QuietTerminates(A.STUCK, STUCK_PRINTS, u, t, n); }
    forall i | IsPrinted(i)
      ensures t.flight[i] <= if i == M.PrintedNumber(5) then 1 else 0
    {
      PrintsNothingElse(A.STUCK, STUCK_PRINTS, u, t, n, i);
      OnlyFive(map["y" := 5]);
    }
  }

  lemma OnlyFive(env: F.Env)
    requires env == map["y" := 5]
    ensures Output(env, STUCK_PRINTS, 2) == multiset{M.PrintedNumber(5)}
  {
    assert Output(env, STUCK_PRINTS, 0) == multiset{};
    assert Output(env, STUCK_PRINTS, 1) == multiset{};
  }

  // ---- From the store ----

  // The module of a compiled program, loaded into an empty store, is the machine's program.
  lemma StoredIsLoaded(s: F.Stmt, q: seq<Var>, u: Setup, o: Object, store: seq<S.Inst>)
    requires D.Prints(s, q) && u.P == Compile(s, q) && K.ObjectOf(Assembly(s, q), u.c, o) && K.HoldsAt(store, u.c, 0)
    ensures Loaded(s, q, u) && |u.Machine().program| <= |store|
    ensures forall k :: 0 <= k < |u.Machine().program| ==> K.Decoded(store[k]) == Some(u.Machine().program[k])
  {
    hide BuiltFrom, K.Decoded, Compile, Assembly;
    K.HeldAlone(Assembly(s, q), u.c, o, store);
  }
}
